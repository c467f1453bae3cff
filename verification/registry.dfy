/**
 * internal/registry/registry.go: the tool registry, its text language and the
 * rules a registry must satisfy to be accepted.
 */
module Registry {
  import opened Wrappers
  import opened Text
  import opened Toml
  import opened Decimal

  const MAX_SCHEMA_VERSION: nat := 2

  datatype Tool = Tool(
    name: string,
    defaultFamily: string,
    defaultVersion: string,
    defaultAlias: string,
    image: string,
    provider: string,
    role: string,
    command: seq<string>,
    argsPrefix: seq<string>,
    pathNext: seq<string>,
    pathEquals: seq<string>,
    pathLast: bool,
    pathLastIfAny: seq<string>,
    envPrefixes: seq<string>,
    envNames: seq<string>,
    envSet: seq<string>,
    projectMarkers: seq<string>,
    projectRootMode: string,
    stateGroup: string,
    projectVolumes: seq<string>,
    sharedVolumes: seq<string>,
    hostMounts: seq<string>,
    cwdMode: string,
    trustedProjectRoot: string)

  datatype Registry = Registry(schema: nat, tools: map<string, Tool>, defaults: map<string, string>)

  datatype Reason =
    | LineTooLong
    | MalformedHeader
    | InvalidToolName
    | ReservedName
    | DuplicateTool
    | InvalidFamily
    | DuplicateFamily
    | UnsupportedSection
    | InvalidSchemaVersion
    | NewerSchemaVersion
    | KeyOutsideSection
    | NotKeyValue
    | UnsupportedKey
    | InvalidValue
    | DuplicateVersion
    | NoTools
    | InvalidTool
    | InvalidDefaults

  /** The tool a section header creates. */
  function FreshTool(name: string): Tool {
    Tool(name, "", "", "", "", "stateless", "", [], [], [], [], false, [], [], [], [], [], "", "", [], [], [], "", "")
  }

  // ---------------------------------------------------------------- names

  predicate NameChar(c: char) {
    'a' <= c <= 'z' || '0' <= c <= '9' || c == '-' || c == '_'
  }

  predicate ValidToolName(s: string) {
    s != "" && forall i :: 0 <= i < |s| ==> NameChar(s[i])
  }

  predicate ValidVersion(s: string) {
    s != "" && forall i :: 0 <= i < |s| ==> NameChar(s[i]) || s[i] == '.'
  }

  /** `cb-v` followed by a digit: a versioned management binary. */
  predicate IsVersionedBinaryName(s: string) {
    |s| > 4 && "cb-v" <= s && IsDigit(s[4])
  }

  predicate ReservedToolName(s: string) {
    || s == "cb" || s == "container-bin" || s == "cb-update-helper"
    || s == "con" || s == "prn" || s == "aux" || s == "nul"
    || IsVersionedBinaryName(s)
    || (|s| == 4 && ("com" <= s || "lpt" <= s) && '1' <= s[3] <= '9')
  }

  predicate ValidEnvAssignment(s: string) {
    var i := IndexOf(s, '=');
    0 < i < |s| &&
    forall j :: 0 <= j < i ==>
      'A' <= s[j] <= 'Z' || 'a' <= s[j] <= 'z' || s[j] == '_' || (j > 0 && IsDigit(s[j]))
  }

  predicate IsControl(c: char) {
    (c as int) < 0x20 || 0x7f <= (c as int) < 0xa0
  }

  predicate ValidProjectMarker(s: string) {
    s != "" && s != "." && s != ".." && '/' !in s && '\\' !in s && forall c :: c in s ==> !IsControl(c)
  }

  // ---------------------------------------------------------------- volumes and mounts

  /** Index of the first `:/`, or the length. */
  function MountSeparator(s: string): (i: nat)
    ensures i <= |s|
    ensures i < |s| ==> i + 1 < |s| && s[i + 1] == '/'
  {
    if |s| < 2 then |s| else if s[0] == ':' && s[1] == '/' then 0 else 1 + MountSeparator(s[1..])
  }

  function LastIndexOf(s: string, c: char): Option<nat> {
    if s == "" then None else if s[|s| - 1] == c then Some(|s| - 1) else LastIndexOf(s[..|s| - 1], c)
  }

  /** The segments left by path.Clean of an absolute path without `..`. */
  function CleanSegments(parts: seq<string>): seq<string> {
    if parts == [] then []
    else (if parts[0] == "" || parts[0] == "." then [] else [parts[0]]) + CleanSegments(parts[1..])
  }

  const PYTHON_PATHS: seq<seq<string>> := [["venv"], ["root", ".cache", "pip"]]
  const MANAGED_PATHS: seq<seq<string>> := [["workspace"], ["cb"], ["venv"], ["root", ".cache", "pip"]]

  predicate UnderAny(reserved: seq<seq<string>>, path: seq<string>) {
    exists i :: 0 <= i < |reserved| && reserved[i] <= path
  }

  /** The cleaned container path of a NAME:/PATH volume, if the entry is acceptable. */
  function VolumeTarget(spec: string): Option<seq<string>> {
    var i := MountSeparator(spec);
    if i == 0 || i >= |spec| || !ValidToolName(spec[..i]) then None
    else
      var parts := SplitOn(spec[i + 1..], '/');
      var clean := CleanSegments(parts);
      if ".." in parts || clean == [] || UnderAny(PYTHON_PATHS, clean) then None else Some(clean)
  }

  predicate ValidHostMountSource(source: string) {
    if '%' in source then
      && "%USERPROFILE%" <= source
      && var rest := source[|"%USERPROFILE%"|..];
         '%' !in rest && (rest == "" || rest[0] == '\\' || rest[0] == '/')
    else
      && |source| >= 3
      && ('A' <= source[0] <= 'Z' || 'a' <= source[0] <= 'z')
      && source[1] == ':' && (source[2] == '\\' || source[2] == '/')
  }

  /** The cleaned container path of a SOURCE:/PATH:MODE host mount, if the entry is acceptable. */
  function HostMountTarget(spec: string): Option<seq<string>> {
    var i := MountSeparator(spec);
    if i == 0 || i >= |spec| then None
    else
      var source, rest := spec[..i], spec[i + 1..];
      match LastIndexOf(rest, ':')
      case None => None
      case Some(j) =>
        if j >= |rest| then None
        else
          var target, mode := rest[..j], rest[j + 1..];
          var parts := SplitOn(target, '/');
          var clean := CleanSegments(parts);
          if mode != "ro" && mode != "rw" then None
          else if target == "" || target[0] != '/' || ',' in target || ':' in target then None
          else if ".." in parts || clean == [] then None
          else if ',' in source || !ValidHostMountSource(source) then None
          else Some(clean)
  }

  predicate HostMountsOk(t: Tool) {
    var volumes := t.projectVolumes + t.sharedVolumes;
    && (forall i :: 0 <= i < |volumes| ==> VolumeTarget(volumes[i]).Some?)
    && (forall i :: 0 <= i < |t.hostMounts| ==>
          && HostMountTarget(t.hostMounts[i]).Some?
          && !UnderAny(MANAGED_PATHS, HostMountTarget(t.hostMounts[i]).value)
          && forall j :: 0 <= j < |volumes| ==> VolumeTarget(volumes[j]) != HostMountTarget(t.hostMounts[i]))
    && (forall i, j :: 0 <= i < j < |t.hostMounts| ==>
          HostMountTarget(t.hostMounts[i]) != HostMountTarget(t.hostMounts[j]))
  }

  /** The checks every tool section must pass on its own. */
  predicate ToolOk(t: Tool) {
    && t.image != ""
    && (t.provider == "stateless"
        || (t.provider == "python" && (t.role == "python" || t.role == "pip"))
        || (t.provider == "stateful" && t.stateGroup != "" && (t.projectVolumes != [] || t.sharedVolumes != [])))
    && (t.cwdMode == "" || t.cwdMode == "project" || t.cwdMode == "isolated")
    && (t.projectRootMode == "" || t.projectRootMode == "nearest" || t.projectRootMode == "outermost")
    && (t.cwdMode == "isolated" ==>
          t.projectVolumes == [] && t.provider != "python" && t.projectMarkers == [] && t.projectRootMode == "")
    && HostMountsOk(t)
  }

  // ---------------------------------------------------------------- default aliases

  predicate HasMetadata(t: Tool) {
    t.defaultFamily != "" || t.defaultVersion != "" || t.defaultAlias != ""
  }

  /** What one tool's alias metadata must satisfy, given the names of all concrete tools. */
  predicate MetadataOk(schema: nat, concrete: set<string>, t: Tool) {
    HasMetadata(t) ==>
      && schema >= 2
      && ValidToolName(t.defaultFamily) && ValidVersion(t.defaultVersion)
      && ValidToolName(t.defaultAlias) && !ReservedToolName(t.defaultAlias)
      && t.defaultAlias !in concrete
  }

  /** Two tools with metadata neither share an alias across families nor supply the same alias twice. */
  predicate Compatible(t: Tool, u: Tool) {
    HasMetadata(t) && HasMetadata(u) && t.defaultAlias == u.defaultAlias ==>
      t.defaultFamily == u.defaultFamily && t.defaultVersion != u.defaultVersion
  }

  /** The aliases one version of a family supplies. */
  function AliasesOf(tools: map<string, Tool>, family: string, version: string): set<string> {
    set n | n in tools && HasMetadata(tools[n]) && tools[n].defaultFamily == family && tools[n].defaultVersion == version
      :: tools[n].defaultAlias
  }

  /** A selected family: its version exists and every version supplies the same aliases. */
  predicate FamilyOk(tools: map<string, Tool>, family: string, selected: string) {
    && selected != ""
    && AliasesOf(tools, family, selected) != {}
    && forall n :: n in tools && HasMetadata(tools[n]) && tools[n].defaultFamily == family ==>
         AliasesOf(tools, family, tools[n].defaultVersion) == AliasesOf(tools, family, selected)
  }

  predicate ToolsLabelled(reg: Registry) {
    && (forall n :: n in reg.tools ==> MetadataOk(reg.schema, reg.tools.Keys, reg.tools[n]))
    && (forall n, m :: n in reg.tools && m in reg.tools && n != m ==> Compatible(reg.tools[n], reg.tools[m]))
  }

  predicate FamiliesOk(reg: Registry) {
    forall f :: f in reg.defaults ==> FamilyOk(reg.tools, f, reg.defaults[f])
  }

  predicate FamiliesDeclared(reg: Registry) {
    forall n :: n in reg.tools && HasMetadata(reg.tools[n]) ==> reg.tools[n].defaultFamily in reg.defaults
  }

  /** The alias rules a registry must satisfy as a whole. */
  predicate DefaultsOk(reg: Registry) {
    && ToolsLabelled(reg)
    && (reg.schema < 2 ==> reg.defaults == map[])
    && FamiliesOk(reg)
    && FamiliesDeclared(reg)
  }

  // ---------------------------------------------------------------- keys

  /** Assign one key of a [tools.NAME] section. */
  function ApplyKey(t: Tool, key: string, value: string): Result<Tool, Reason> {
    if key == "path_last" then
      match ParseBool(value) case None => Err(InvalidValue) case Some(v) => Ok(t.(pathLast := v))
    else if IsQuotedKey(key) then
      match ParseQuoted(value) case None => Err(InvalidValue) case Some(v) => Ok(SetQuoted(t, key, v))
    else if IsArrayKey(key) then
      match ParseStringArray(value)
      case None => Err(InvalidValue)
      case Some(v) => if ArrayValueOk(key, v) then Ok(SetArray(t, key, v)) else Err(InvalidValue)
    else Err(UnsupportedKey)
  }

  predicate IsQuotedKey(key: string) {
    || key == "default_family" || key == "default_version" || key == "default_alias" || key == "image"
    || key == "provider" || key == "role" || key == "project_root_mode" || key == "state_group" || key == "cwd_mode"
  }

  predicate IsArrayKey(key: string) {
    || key == "command" || key == "args_prefix" || key == "path_next" || key == "path_equals"
    || key == "path_last_if_any" || key == "env_prefixes" || key == "env_names" || key == "env_set"
    || key == "project_markers" || key == "project_volumes" || key == "shared_volumes" || key == "host_mounts"
  }

  predicate ArrayValueOk(key: string, v: seq<string>) {
    && (key == "env_set" ==> forall i :: 0 <= i < |v| ==> ValidEnvAssignment(v[i]))
    && (key == "project_markers" ==> forall i :: 0 <= i < |v| ==> ValidProjectMarker(v[i]))
  }

  function SetQuoted(t: Tool, key: string, v: string): Tool
    requires IsQuotedKey(key)
  {
    if key == "default_family" then t.(defaultFamily := Lower(v))
    else if key == "default_version" then t.(defaultVersion := Lower(v))
    else if key == "default_alias" then t.(defaultAlias := Lower(v))
    else if key == "image" then t.(image := v)
    else if key == "provider" then t.(provider := Lower(v))
    else if key == "role" then t.(role := Lower(v))
    else if key == "project_root_mode" then t.(projectRootMode := Lower(v))
    else if key == "state_group" then t.(stateGroup := Lower(v))
    else t.(cwdMode := Lower(v))
  }

  function SetArray(t: Tool, key: string, v: seq<string>): Tool
    requires IsArrayKey(key)
  {
    if key == "command" then t.(command := v)
    else if key == "args_prefix" then t.(argsPrefix := v)
    else if key == "path_next" then t.(pathNext := v)
    else if key == "path_equals" then t.(pathEquals := v)
    else if key == "path_last_if_any" then t.(pathLastIfAny := v)
    else if key == "env_prefixes" then t.(envPrefixes := v)
    else if key == "env_names" then t.(envNames := v)
    else if key == "env_set" then t.(envSet := v)
    else if key == "project_markers" then t.(projectMarkers := v)
    else if key == "project_volumes" then t.(projectVolumes := v)
    else if key == "shared_volumes" then t.(sharedVolumes := v)
    else t.(hostMounts := v)
  }

  // ---------------------------------------------------------------- the line parser

  datatype Cursor = Top | InTool(name: string) | InDefault(family: string)

  /** What has been read so far, and the section the next key belongs to. */
  datatype State =
    | Reading(schema: nat, tools: map<string, Tool>, defaults: map<string, string>, at: Cursor)
    | Rejected(reason: Reason)

  const Start: State := Reading(1, map[], map[], Top)

  /** A scanner token: the line without its newline and one carriage return before it. */
  function ScanToken(line: string): string {
    var s := WithoutNewline(line);
    if s != [] && s[|s| - 1] == '\r' then s[..|s| - 1] else s
  }

  /** What a line says once its comment and surrounding white space are gone. */
  function Meaning(line: string): string {
    Trim(StripComment(line))
  }

  const TOOLS := "tools."
  const DEFAULTS := "defaults."

  /** The tool named by a header section, as every editor and the parser read it. */
  function ToolOfSection(section: string): Option<string> {
    if TOOLS <= section then Some(Lower(Trim(section[|TOOLS|..]))) else None
  }

  /** One line as the parser sees it, before it knows in which section the line stands. */
  datatype Item =
    | TooLong
    | Blank
    | BadHeader
    | ToolHeader(name: string)
    | FamilyHeader(family: string)
    | OtherHeader
    | Words
    | Assign(key: string, value: string)

  function HeaderItem(section: string): Item {
    if TOOLS <= section && |section| > |TOOLS| then ToolHeader(Lower(Trim(section[|TOOLS|..])))
    else if DEFAULTS <= section && |section| > |DEFAULTS| then FamilyHeader(Lower(Trim(section[|DEFAULTS|..])))
    else OtherHeader
  }

  /** A line that is no header: split at its first `=`. */
  function EntryItem(line: string): Item {
    var eq := IndexOf(line, '=');
    if eq == |line| then Words else Assign(Trim(line[..eq]), Trim(line[eq + 1..]))
  }

  function ItemOf(line: string): Item {
    if line == "" then Blank
    else
      match HeaderOf(line)
      case Malformed => BadHeader
      case Section(section) => HeaderItem(section)
      case NotHeader => EntryItem(line)
  }

  function Read(raw: string): Item {
    if !FitsScanner(raw) then TooLong else ItemOf(Meaning(ScanToken(raw)))
  }

  function Items(lines: seq<string>): (items: seq<Item>)
    ensures |items| == |lines|
    ensures forall i :: 0 <= i < |lines| ==> items[i] == Read(lines[i])
  {
    seq(|lines|, i requires 0 <= i < |lines| => Read(lines[i]))
  }

  const MAX_INT: nat := 0x7fff_ffff_ffff_ffff

  /** strconv.Atoi for the callers that accept only positive numbers: to them a negative
      or out-of-range number is as unacceptable as a syntax error. */
  function Atoi(s: string): Option<nat> {
    var digits := if s != "" && s[0] == '+' then s[1..] else s;
    if digits == "" || !AllDigits(digits) || Value(digits) > MAX_INT then None else Some(Value(digits))
  }

  function StepToolHeader(st: State, name: string): State
    requires st.Reading?
  {
    if !ValidToolName(name) then Rejected(InvalidToolName)
    else if ReservedToolName(name) then Rejected(ReservedName)
    else if name in st.tools then Rejected(DuplicateTool)
    else st.(tools := st.tools[name := FreshTool(name)], at := InTool(name))
  }

  function StepFamilyHeader(st: State, family: string): State
    requires st.Reading?
  {
    if !ValidToolName(family) then Rejected(InvalidFamily)
    else if family in st.defaults then Rejected(DuplicateFamily)
    else st.(defaults := st.defaults[family := ""], at := InDefault(family))
  }

  /** A key before the first section: only schema_version is one. */
  function StepTop(st: State, key: string, value: string): State
    requires st.Reading?
  {
    if key != "schema_version" then Rejected(KeyOutsideSection)
    else
      match Atoi(value)
      case None => Rejected(InvalidSchemaVersion)
      case Some(v) =>
        if v < 1 then Rejected(InvalidSchemaVersion)
        else if v > MAX_SCHEMA_VERSION then Rejected(NewerSchemaVersion)
        else st.(schema := v)
  }

  function StepDefault(st: State, key: string, value: string): State
    requires st.Reading? && st.at.InDefault?
  {
    var family := st.at.family;
    if key != "version" then Rejected(UnsupportedKey)
    else
      match ParseQuoted(value)
      case None => Rejected(InvalidValue)
      case Some(v) =>
        if !ValidVersion(v) then Rejected(InvalidValue)
        else if family in st.defaults && st.defaults[family] != "" then Rejected(DuplicateVersion)
        else st.(defaults := st.defaults[family := v])
  }

  function StepTool(st: State, key: string, value: string): State
    requires st.Reading? && st.at.InTool?
  {
    var name := st.at.name;
    var tool := if name in st.tools then st.tools[name] else FreshTool(name);
    match ApplyKey(tool, key, value)
    case Err(reason) => Rejected(reason)
    case Ok(t) => st.(tools := st.tools[name := t])
  }

  /** One line; rejection is final. */
  function Step(st: State, item: Item): State {
    if st.Rejected? then st
    else
      match item
      case TooLong => Rejected(LineTooLong)
      case Blank => st
      case BadHeader => Rejected(MalformedHeader)
      case ToolHeader(name) => StepToolHeader(st, name)
      case FamilyHeader(family) => StepFamilyHeader(st, family)
      case OtherHeader => Rejected(UnsupportedSection)
      case Words => if st.at.Top? then Rejected(KeyOutsideSection) else Rejected(NotKeyValue)
      case Assign(key, value) =>
        match st.at
        case Top => StepTop(st, key, value)
        case InDefault(_) => StepDefault(st, key, value)
        case InTool(_) => StepTool(st, key, value)
  }

  function Run(st: State, items: seq<Item>): State
    decreases |items|
  {
    if items == [] then st else Run(Step(st, items[0]), items[1..])
  }

  /** The checks on the whole registry after the last line. */
  function Finish(st: State): Result<Registry, Reason> {
    if st.Rejected? then Err(st.reason)
    else if st.tools == map[] then Err(NoTools)
    else if exists n :: n in st.tools && !ToolOk(st.tools[n]) then Err(InvalidTool)
    else if !DefaultsOk(Registry(st.schema, st.tools, st.defaults)) then Err(InvalidDefaults)
    else Ok(Registry(st.schema, st.tools, st.defaults))
  }

  function ParseTOML(text: string): Result<Registry, Reason> {
    Finish(Run(Start, Items(SplitAfter(text))))
  }

  // ---------------------------------------------------------------- lemmas on lines

  lemma {:induction false} NoHashNoComment(q: Lex, s: string)
    requires '#' !in s
    ensures CommentAt(q, s) == |s|
    decreases |s|
  {
    if s != "" {
      assert s[0] in s;
      assert forall c :: c in s[1..] ==> c in s;
      NoHashNoComment(Next(q, s[0]), s[1..]);
    }
  }

  /** Line terminators and trailing blanks never change what a line says. */
  lemma MeaningOfSuffix(s: string, suffix: string)
    requires AllSpace(suffix)
    ensures Meaning(s + suffix) == Meaning(s)
  {
    CommentAppend(Plain, s, suffix);
    if CommentAt(Plain, s) < |s| {
      assert StripComment(s + suffix) == StripComment(s);
    } else {
      assert forall i :: 0 <= i < |suffix| ==> IsSpace(suffix[i]) && suffix[i] != '#';
      NoHashNoComment(After(Plain, s), suffix);
      assert StripComment(s + suffix) == s + suffix && StripComment(s) == s;
      TrimPad("", s, suffix);
      assert "" + s + suffix == s + suffix;
    }
  }

  lemma MeaningOfToken(raw: string)
    ensures Meaning(ScanToken(raw)) == Meaning(raw)
  {
    var token := ScanToken(raw);
    var suffix := raw[|token|..];
    assert raw == token + suffix;
    assert AllSpace(suffix);
    MeaningOfSuffix(token, suffix);
  }

  /** A line that says nothing is no item. */
  lemma ReadBlank(raw: string)
    requires FitsScanner(raw) && Meaning(raw) == ""
    ensures Read(raw) == Blank
  {
    MeaningOfToken(raw);
  }

  lemma ReadEmpty()
    ensures Read("") == Blank
  {
    assert Meaning("") == "";
    ReadBlank("");
  }

  /** The header an editor sees on a raw line is the parser's. */
  lemma ReadHeader(raw: string)
    requires !Read(raw).TooLong?
    ensures match ParseSectionHeader(raw)
            case Malformed => Read(raw) == BadHeader
            case Section(section) => Read(raw) == HeaderItem(section)
            case NotHeader => Read(raw) == Blank || Read(raw) == Words || Read(raw).Assign?
  {
    MeaningOfToken(raw);
  }

  lemma {:induction false} RunAppend(st: State, a: seq<Item>, b: seq<Item>)
    ensures Run(st, a + b) == Run(Run(st, a), b)
    decreases |a|
  {
    if a == [] {
      assert a + b == b;
    } else {
      assert (a + b)[1..] == a[1..] + b;
      RunAppend(Step(st, a[0]), a[1..], b);
    }
  }

  lemma {:induction false} RunRejected(st: State, items: seq<Item>)
    requires st.Rejected?
    ensures Run(st, items) == st
    decreases |items|
  {
    if items != [] { RunRejected(Step(st, items[0]), items[1..]); }
  }

  lemma RunOne(st: State, item: Item)
    ensures Run(st, [item]) == Step(st, item)
  {
    assert [item][1..] == [];
  }

  /** An accepted text is read without rejection at every line. */
  lemma RunPrefix(st: State, items: seq<Item>, i: nat)
    requires i <= |items| && Run(st, items).Reading?
    ensures Run(st, items[..i]).Reading? && Run(Run(st, items[..i]), items[i..]).Reading?
    ensures i < |items| ==> Run(st, items[..i + 1]) == Step(Run(st, items[..i]), items[i])
    ensures i < |items| ==> Run(st, items[..i + 1]).Reading?
  {
    assert items == items[..i] + items[i..];
    RunAppend(st, items[..i], items[i..]);
    if Run(st, items[..i]).Rejected? { RunRejected(Run(st, items[..i]), items[i..]); }
    if i < |items| {
      assert items[..i + 1] == items[..i] + [items[i]];
      RunAppend(st, items[..i], [items[i]]);
      RunOne(Run(st, items[..i]), items[i]);
      assert items == items[..i + 1] + items[i + 1..];
      RunAppend(st, items[..i + 1], items[i + 1..]);
      if Run(st, items[..i + 1]).Rejected? { RunRejected(Run(st, items[..i + 1]), items[i + 1..]); }
    }
  }

  lemma ItemsAppend(a: seq<string>, b: seq<string>)
    ensures Items(a + b) == Items(a) + Items(b)
  {
  }

  lemma RunTrailingBlank(st: State, lines: seq<string>)
    ensures Run(st, Items(lines + [""])) == Run(st, Items(lines))
  {
    ItemsAppend(lines, [""]);
    ReadEmpty();
    assert Items([""]) == [Blank];
    RunAppend(st, Items(lines), [Blank]);
    RunOne(Run(st, Items(lines)), Blank);
  }

  /** Parsing joined lines is running over them. */
  lemma RunOfConcat(lines: seq<string>)
    requires Lineated(lines)
    ensures Run(Start, Items(SplitAfter(Concat(lines)))) == Run(Start, Items(lines))
    ensures ParseTOML(Concat(lines)) == Finish(Run(Start, Items(lines)))
  {
    SplitConcat(lines);
    RunTrailingBlank(Start, lines);
  }

  // ---------------------------------------------------------------- the parser's loop

  /** The tokens bufio.Scanner delivers: an empty last line is not one. */
  function Tokens(text: string): seq<string> {
    var lines := SplitAfter(text);
    if lines[|lines| - 1] == "" then lines[..|lines| - 1] else lines
  }

  /** The section header case of the parser's loop body. */
  method OpenSection(schema: nat, tools0: map<string, Tool>, defaults0: map<string, string>, at: Cursor, section: string)
    returns (error: Option<Reason>, tools: map<string, Tool>, defaults: map<string, string>,
             currentTool: string, currentDefault: string)
    ensures var next := Step(Reading(schema, tools0, defaults0, at), HeaderItem(section));
            match error
            case Some(reason) => next == Rejected(reason)
            case None => next == Reading(schema, tools, defaults, CursorOf(currentTool, currentDefault))
    ensures error.None? ==> (currentTool != "" && currentDefault == "") || (currentTool == "" && currentDefault != "")
    ensures error.None? && currentTool != "" ==> currentTool in tools
    ensures error.None? && currentDefault != "" ==> currentDefault in defaults
  {
    error, tools, defaults, currentTool, currentDefault := None, tools0, defaults0, "", "";
    if TOOLS <= section && |section| > |TOOLS| {
      var name := Lower(Trim(section[|TOOLS|..]));
      if !ValidToolName(name) { error := Some(InvalidToolName); return; }
      if ReservedToolName(name) { error := Some(ReservedName); return; }
      if name in tools { error := Some(DuplicateTool); return; }
      tools := tools[name := FreshTool(name)];
      currentTool := name;
    } else if DEFAULTS <= section && |section| > |DEFAULTS| {
      var family := Lower(Trim(section[|DEFAULTS|..]));
      if !ValidToolName(family) { error := Some(InvalidFamily); return; }
      if family in defaults { error := Some(DuplicateFamily); return; }
      defaults := defaults[family := ""];
      currentDefault := family;
    } else {
      error := Some(UnsupportedSection);
    }
  }

  /** The key case of the parser's loop body. */
  method ReadKey(schema0: nat, tools0: map<string, Tool>, defaults0: map<string, string>,
                 currentTool: string, currentDefault: string, line: string)
    returns (error: Option<Reason>, schema: nat, tools: map<string, Tool>, defaults: map<string, string>)
    requires currentTool == "" || currentDefault == ""
    requires currentTool != "" ==> currentTool in tools0
    requires currentDefault != "" ==> currentDefault in defaults0
    ensures var st := Reading(schema0, tools0, defaults0, CursorOf(currentTool, currentDefault));
            var next := Step(st, EntryItem(line));
            match error
            case Some(reason) => next == Rejected(reason)
            case None => next == Reading(schema, tools, defaults, st.at)
    ensures error.None? && currentTool != "" ==> currentTool in tools
    ensures error.None? && currentDefault != "" ==> currentDefault in defaults
  {
    error, schema, tools, defaults := None, schema0, tools0, defaults0;
    var eq := IndexOf(line, '=');
    if currentTool == "" && currentDefault == "" {
      if eq == |line| || Trim(line[..eq]) != "schema_version" { error := Some(KeyOutsideSection); return; }
      var v := Atoi(Trim(line[eq + 1..]));
      if v.None? || v.value < 1 { error := Some(InvalidSchemaVersion); return; }
      if v.value > MAX_SCHEMA_VERSION { error := Some(NewerSchemaVersion); return; }
      schema := v.value;
      return;
    }
    if eq == |line| { error := Some(NotKeyValue); return; }
    var key, value := Trim(line[..eq]), Trim(line[eq + 1..]);
    if currentDefault != "" {
      if key != "version" { error := Some(UnsupportedKey); return; }
      var v := ParseQuoted(value);
      if v.None? || !ValidVersion(v.value) { error := Some(InvalidValue); return; }
      if defaults[currentDefault] != "" { error := Some(DuplicateVersion); return; }
      defaults := defaults[currentDefault := v.value];
    } else {
      var t := ApplyKey(tools[currentTool], key, value);
      if t.Err? { error := Some(t.error); return; }
      tools := tools[currentTool := t.value];
    }
  }

  /** The parser's loop body, on one token of the scanner. */
  method ReadLine(raw: string, schema0: nat, tools0: map<string, Tool>, defaults0: map<string, string>,
                  currentTool0: string, currentDefault0: string)
    returns (error: Option<Reason>, schema: nat, tools: map<string, Tool>, defaults: map<string, string>,
             currentTool: string, currentDefault: string)
    requires OpenIsFiled(tools0, defaults0, currentTool0, currentDefault0)
    ensures var next := Step(Reading(schema0, tools0, defaults0, CursorOf(currentTool0, currentDefault0)), Read(raw));
            match error
            case Some(reason) => next == Rejected(reason)
            case None => next == Reading(schema, tools, defaults, CursorOf(currentTool, currentDefault))
                         && OpenIsFiled(tools, defaults, currentTool, currentDefault)
  {
    error, schema, tools, defaults := None, schema0, tools0, defaults0;
    currentTool, currentDefault := currentTool0, currentDefault0;
    if !FitsScanner(raw) { error := Some(LineTooLong); return; }
    var line := Trim(StripComment(ScanToken(raw)));
    if line == "" { return; }
    match HeaderOf(line) {
      case Malformed => error := Some(MalformedHeader);
      case Section(section) =>
        error, tools, defaults, currentTool, currentDefault :=
          OpenSection(schema, tools, defaults, CursorOf(currentTool, currentDefault), section);
      case NotHeader =>
        error, schema, tools, defaults := ReadKey(schema, tools, defaults, currentTool, currentDefault, line);
    }
  }

  /** The open section, if any, is one that has been filed. */
  predicate OpenIsFiled(tools: map<string, Tool>, defaults: map<string, string>, currentTool: string, currentDefault: string) {
    && (currentTool == "" || currentDefault == "")
    && (currentTool != "" ==> currentTool in tools)
    && (currentDefault != "" ==> currentDefault in defaults)
  }

  lemma RunFrom(st: State, items: seq<Item>, i: nat)
    requires i < |items|
    ensures Run(st, items[i..]) == Run(Step(st, items[i]), items[i + 1..])
    ensures Step(st, items[i]).Rejected? ==> Run(st, items[i..]) == Step(st, items[i])
  {
    assert items[i..][1..] == items[i + 1..];
    if Step(st, items[i]).Rejected? { RunRejected(Step(st, items[i]), items[i + 1..]); }
  }

  // -------------------- the checks after the last line

  /** The first loop of validateHostMounts: the places volumes are mounted at. */
  method VolumePlaces(volumes: seq<string>) returns (ok: bool, places: set<seq<string>>)
    ensures ok <==> forall i :: 0 <= i < |volumes| ==> VolumeTarget(volumes[i]).Some?
    ensures ok ==> forall x :: x in places <==> exists i :: 0 <= i < |volumes| && VolumeTarget(volumes[i]) == Some(x)
  {
    places := {};
    for i := 0 to |volumes|
      invariant forall k :: 0 <= k < i ==> VolumeTarget(volumes[k]).Some?
      invariant forall x :: x in places <==> exists k :: 0 <= k < i && VolumeTarget(volumes[k]) == Some(x)
    {
      var target := VolumeTarget(volumes[i]);
      if target.None? { return false, {}; }
      places := places + {target.value};
    }
    return true, places;
  }

  /** The four reserved places. */
  method IsManaged(target: seq<string>) returns (managed: bool)
    ensures managed <==> UnderAny(MANAGED_PATHS, target)
  {
    for i := 0 to |MANAGED_PATHS|
      invariant forall k :: 0 <= k < i ==> !(MANAGED_PATHS[k] <= target)
    {
      if MANAGED_PATHS[i] <= target { return true; }
    }
    return false;
  }

  predicate MountOk(spec: string, volumes: seq<string>) {
    && HostMountTarget(spec).Some?
    && !UnderAny(MANAGED_PATHS, HostMountTarget(spec).value)
    && forall j :: 0 <= j < |volumes| ==> VolumeTarget(volumes[j]) != HostMountTarget(spec)
  }

  /** The body of validateHostMounts' second loop. */
  method CheckMount(spec: string, ghost volumes: seq<string>, places: set<seq<string>>, seen: set<seq<string>>)
    returns (target: Option<seq<string>>)
    requires forall x :: x in places <==> exists i :: 0 <= i < |volumes| && VolumeTarget(volumes[i]) == Some(x)
    ensures target.Some? <==> MountOk(spec, volumes) && HostMountTarget(spec).value !in seen
    ensures target.Some? ==> target == HostMountTarget(spec)
  {
    target := HostMountTarget(spec);
    if target.None? { return; }
    var managed := IsManaged(target.value);
    if managed || target.value in seen || target.value in places { return None; }
  }

  predicate MountsOk(mounts: seq<string>, volumes: seq<string>) {
    && (forall i :: 0 <= i < |mounts| ==> MountOk(mounts[i], volumes))
    && forall i, j :: 0 <= i < j < |mounts| ==> HostMountTarget(mounts[i]) != HostMountTarget(mounts[j])
  }

  method CheckMounts(mounts: seq<string>, ghost volumes: seq<string>, places: set<seq<string>>) returns (ok: bool)
    requires forall x :: x in places <==> exists i :: 0 <= i < |volumes| && VolumeTarget(volumes[i]) == Some(x)
    ensures ok <==> MountsOk(mounts, volumes)
  {
    var seen: set<seq<string>> := {};
    for i := 0 to |mounts|
      invariant forall x :: x in seen <==> exists k :: 0 <= k < i && HostMountTarget(mounts[k]) == Some(x)
      invariant MountsOk(mounts[..i], volumes)
    {
      var target := CheckMount(mounts[i], volumes, places, seen);
      assert mounts[..i + 1] == mounts[..i] + [mounts[i]];
      if target.None? {
        if MountOk(mounts[i], volumes) {
          var k :| 0 <= k < i && HostMountTarget(mounts[k]) == HostMountTarget(mounts[i]);
        }
        return false;
      }
      seen := seen + {target.value};
    }
    assert mounts[..|mounts|] == mounts;
    return true;
  }

  /** validateHostMounts: no entry is malformed, reserved, declared twice, or a volume's. */
  method CheckHostMounts(t: Tool) returns (ok: bool)
    ensures ok <==> HostMountsOk(t)
  {
    var volumes := t.projectVolumes + t.sharedVolumes;
    var valid, places := VolumePlaces(volumes);
    if !valid { return false; }
    ok := CheckMounts(t.hostMounts, volumes, places);
  }

  /** The checks on one tool, in the order of the source. */
  method CheckTool(t: Tool) returns (ok: bool)
    ensures ok <==> ToolOk(t)
  {
    if t.image == "" { return false; }
    if t.provider == "stateless" {
    } else if t.provider == "python" {
      if t.role != "python" && t.role != "pip" { return false; }
    } else if t.provider == "stateful" {
      if t.stateGroup == "" { return false; }
      if |t.projectVolumes| == 0 && |t.sharedVolumes| == 0 { return false; }
      var valid, _ := VolumePlaces(t.projectVolumes + t.sharedVolumes);
      if !valid { return false; }
    } else {
      return false;
    }
    if t.cwdMode != "" && t.cwdMode != "project" && t.cwdMode != "isolated" { return false; }
    if t.projectRootMode != "" && t.projectRootMode != "nearest" && t.projectRootMode != "outermost" { return false; }
    if t.cwdMode == "isolated" && |t.projectVolumes| > 0 { return false; }
    if t.cwdMode == "isolated" && t.provider == "python" { return false; }
    if t.cwdMode == "isolated" && |t.projectMarkers| > 0 { return false; }
    if t.cwdMode == "isolated" && t.projectRootMode != "" { return false; }
    ok := CheckHostMounts(t);
  }

  /** The loop over the tools, in arbitrary order. */
  method CheckTools(tools: map<string, Tool>) returns (ok: bool)
    ensures ok <==> forall n :: n in tools ==> ToolOk(tools[n])
  {
    var todo := tools.Keys;
    while todo != {}
      invariant todo <= tools.Keys
      invariant forall n :: n in tools && n !in todo ==> ToolOk(tools[n])
      decreases |todo|
    {
      var n :| n in todo;
      var valid := CheckTool(tools[n]);
      if !valid { return false; }
      todo := todo - {n};
    }
    return true;
  }

  /** ParseTOML as the source runs it: one pass over the scanner's lines that fills two
      maps and remembers which section is open. */
  method ParseLoop(text: string) returns (r: Result<Registry, Reason>)
    ensures r == ParseTOML(text)
  {
    var lines := Tokens(text);
    TokensSuffice(text);
    var schema: nat, tools: map<string, Tool>, defaults: map<string, string> := 1, map[], map[];
    var currentTool, currentDefault := "", "";
    ghost var items := Items(lines);
    assert items[0..] == items;
    for i := 0 to |lines|
      invariant OpenIsFiled(tools, defaults, currentTool, currentDefault)
      invariant Run(Start, items) == Run(Reading(schema, tools, defaults, CursorOf(currentTool, currentDefault)), items[i..])
    {
      RunFrom(Reading(schema, tools, defaults, CursorOf(currentTool, currentDefault)), items, i);
      var error: Option<Reason>;
      error, schema, tools, defaults, currentTool, currentDefault :=
        ReadLine(lines[i], schema, tools, defaults, currentTool, currentDefault);
      if error.Some? { return Err(error.value); }
    }
    if |tools| == 0 { return Err(NoTools); }
    var valid := CheckTools(tools);
    if !valid { return Err(InvalidTool); }
    var reg := Registry(schema, tools, defaults);
    return if DefaultsOk(reg) then Ok(reg) else Err(InvalidDefaults);
  }

  function CursorOf(currentTool: string, currentDefault: string): Cursor {
    if currentTool != "" then InTool(currentTool) else if currentDefault != "" then InDefault(currentDefault) else Top
  }

  lemma TokensSuffice(text: string)
    ensures Run(Start, Items(Tokens(text))) == Run(Start, Items(SplitAfter(text)))
  {
    var lines := SplitAfter(text);
    if lines[|lines| - 1] == "" {
      assert lines == Tokens(text) + [""];
      RunTrailingBlank(Start, Tokens(text));
    }
  }
}
