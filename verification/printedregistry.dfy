/**
 * A registry as text, one line for every field of every tool, and the parser reads it back:
 * which key fills which field, and in which spelling. Conversely every registry the parser
 * accepts can be printed so.
 */
module PrintedRegistry {
  import opened Wrappers
  import opened Text
  import opened Toml
  import opened Registry
  import opened Builtin
  import opened PrintedLines
  import opened Upgrade
  import M = Migration
  import D = Decimal

  // ---------------------------------------------------------------- one tool

  datatype Line = Line(key: string, value: string)

  function LabelKeys(shown: Printable, t: Tool): seq<Line> {
    [Line("default_family", Quote(shown, t.defaultFamily)),
     Line("default_version", Quote(shown, t.defaultVersion)),
     Line("default_alias", Quote(shown, t.defaultAlias))]
  }

  function ImageKeys(shown: Printable, t: Tool): seq<Line> {
    [Line("image", Quote(shown, t.image)),
     Line("provider", Quote(shown, t.provider)),
     Line("role", Quote(shown, t.role)),
     Line("command", Array(shown, t.command)),
     Line("args_prefix", Array(shown, t.argsPrefix))]
  }

  function PathKeys(shown: Printable, t: Tool): seq<Line> {
    [Line("path_next", Array(shown, t.pathNext)),
     Line("path_equals", Array(shown, t.pathEquals)),
     Line("path_last", if t.pathLast then "true" else "false"),
     Line("path_last_if_any", Array(shown, t.pathLastIfAny))]
  }

  function EnvKeys(shown: Printable, t: Tool): seq<Line> {
    [Line("env_prefixes", Array(shown, t.envPrefixes)),
     Line("env_names", Array(shown, t.envNames)),
     Line("env_set", Array(shown, t.envSet)),
     Line("project_markers", Array(shown, t.projectMarkers)),
     Line("project_root_mode", Quote(shown, t.projectRootMode))]
  }

  function StateKeys(shown: Printable, t: Tool): seq<Line> {
    [Line("state_group", Quote(shown, t.stateGroup)),
     Line("project_volumes", Array(shown, t.projectVolumes)),
     Line("shared_volumes", Array(shown, t.sharedVolumes)),
     Line("host_mounts", Array(shown, t.hostMounts)),
     Line("cwd_mode", Quote(shown, t.cwdMode))]
  }

  /** The lines of a tool section after its header. */
  function ToolKeys(shown: Printable, t: Tool): seq<Line> {
    LabelKeys(shown, t) + ImageKeys(shown, t) + PathKeys(shown, t) + EnvKeys(shown, t) + StateKeys(shown, t)
  }

  /** The spellings and values that a parsed tool can hold. */
  predicate ToolShape(name: string, t: Tool) {
    && t.name == name && ValidToolName(name) && !ReservedToolName(name) && t.trustedProjectRoot == ""
    && IsLower(t.defaultFamily) && IsLower(t.defaultVersion) && IsLower(t.defaultAlias)
    && IsLower(t.provider) && IsLower(t.role) && IsLower(t.projectRootMode) && IsLower(t.stateGroup) && IsLower(t.cwdMode)
    && (forall i :: 0 <= i < |t.envSet| ==> ValidEnvAssignment(t.envSet[i]))
    && (forall i :: 0 <= i < |t.projectMarkers| ==> ValidProjectMarker(t.projectMarkers[i]))
  }

  predicate IsLower(s: string) {
    Lower(s) == s
  }

  // -------------------- what each key fills

  lemma LabelKeysFill(shown: Printable, t: Tool, v: string)
    requires IsLower(v)
    ensures ApplyKey(t, "default_family", Quote(shown, v)) == Ok(t.(defaultFamily := v))
    ensures ApplyKey(t, "default_version", Quote(shown, v)) == Ok(t.(defaultVersion := v))
    ensures ApplyKey(t, "default_alias", Quote(shown, v)) == Ok(t.(defaultAlias := v))
  {
    ParseQuotedQuote(shown, v);
  }

  lemma ModeKeysFill(shown: Printable, t: Tool, v: string)
    requires IsLower(v)
    ensures ApplyKey(t, "provider", Quote(shown, v)) == Ok(t.(provider := v))
    ensures ApplyKey(t, "role", Quote(shown, v)) == Ok(t.(role := v))
    ensures ApplyKey(t, "project_root_mode", Quote(shown, v)) == Ok(t.(projectRootMode := v))
    ensures ApplyKey(t, "state_group", Quote(shown, v)) == Ok(t.(stateGroup := v))
    ensures ApplyKey(t, "cwd_mode", Quote(shown, v)) == Ok(t.(cwdMode := v))
  {
    ParseQuotedQuote(shown, v);
  }

  lemma ImageKeyFills(shown: Printable, t: Tool, v: string)
    ensures ApplyKey(t, "image", Quote(shown, v)) == Ok(t.(image := v))
  {
    ParseQuotedQuote(shown, v);
  }

  /** Array keys are apart from the others, and their values are read by one rule. */
  lemma ArrayKeyFills(shown: Printable, t: Tool, key: string, vs: seq<string>)
    requires IsArrayKey(key)
    ensures ApplyKey(t, key, Array(shown, vs)) == if ArrayValueOk(key, vs) then Ok(SetArray(t, key, vs)) else Err(InvalidValue)
  {
    ParseArrayArray(shown, vs);
    ArrayKeysAreApart(key);
  }

  lemma ArrayKeysAreApart(key: string)
    requires IsArrayKey(key)
    ensures key != "path_last" && !IsQuotedKey(key)
  {
  }

  lemma CommandKeysFill(shown: Printable, t: Tool, vs: seq<string>)
    ensures ApplyKey(t, "command", Array(shown, vs)) == Ok(t.(command := vs))
    ensures ApplyKey(t, "args_prefix", Array(shown, vs)) == Ok(t.(argsPrefix := vs))
  {
    ArrayKeyFills(shown, t, "command", vs);
    ArrayKeyFills(shown, t, "args_prefix", vs);
  }

  lemma PathKeysFill(shown: Printable, t: Tool, vs: seq<string>)
    ensures ApplyKey(t, "path_next", Array(shown, vs)) == Ok(t.(pathNext := vs))
    ensures ApplyKey(t, "path_equals", Array(shown, vs)) == Ok(t.(pathEquals := vs))
    ensures ApplyKey(t, "path_last_if_any", Array(shown, vs)) == Ok(t.(pathLastIfAny := vs))
  {
    ArrayKeyFills(shown, t, "path_next", vs);
    ArrayKeyFills(shown, t, "path_equals", vs);
    ArrayKeyFills(shown, t, "path_last_if_any", vs);
  }

  lemma PathLastFills(t: Tool, v: bool)
    ensures ApplyKey(t, "path_last", if v then "true" else "false") == Ok(t.(pathLast := v))
  {
    var yes, no := "true", "false";
    TrimTrimmed(yes);
    TrimTrimmed(no);
  }

  lemma EnvKeysFill(shown: Printable, t: Tool, vs: seq<string>)
    ensures ApplyKey(t, "env_prefixes", Array(shown, vs)) == Ok(t.(envPrefixes := vs))
    ensures ApplyKey(t, "env_names", Array(shown, vs)) == Ok(t.(envNames := vs))
  {
    ArrayKeyFills(shown, t, "env_prefixes", vs);
    ArrayKeyFills(shown, t, "env_names", vs);
  }

  lemma VolumeKeysFill(shown: Printable, t: Tool, vs: seq<string>)
    ensures ApplyKey(t, "project_volumes", Array(shown, vs)) == Ok(t.(projectVolumes := vs))
    ensures ApplyKey(t, "shared_volumes", Array(shown, vs)) == Ok(t.(sharedVolumes := vs))
    ensures ApplyKey(t, "host_mounts", Array(shown, vs)) == Ok(t.(hostMounts := vs))
  {
    ArrayKeyFills(shown, t, "project_volumes", vs);
    ArrayKeyFills(shown, t, "shared_volumes", vs);
    ArrayKeyFills(shown, t, "host_mounts", vs);
  }

  lemma EnvSetFills(shown: Printable, t: Tool, vs: seq<string>)
    ensures ApplyKey(t, "env_set", Array(shown, vs)) ==
            if forall i :: 0 <= i < |vs| ==> ValidEnvAssignment(vs[i]) then Ok(t.(envSet := vs)) else Err(InvalidValue)
  {
    ArrayKeyFills(shown, t, "env_set", vs);
  }

  lemma MarkersFill(shown: Printable, t: Tool, vs: seq<string>)
    ensures ApplyKey(t, "project_markers", Array(shown, vs)) ==
            if forall i :: 0 <= i < |vs| ==> ValidProjectMarker(vs[i]) then Ok(t.(projectMarkers := vs)) else Err(InvalidValue)
  {
    ArrayKeyFills(shown, t, "project_markers", vs);
  }

  // -------------------- what a section fills

  function KeyItems(lines: seq<Line>): (items: seq<Item>)
    ensures |items| == |lines|
  {
    seq(|lines|, i requires 0 <= i < |lines| => Assign(lines[i].key, lines[i].value))
  }

  lemma {:induction false} KeysAppend(t: Tool, a: seq<Item>, b: seq<Item>, u: Tool)
    requires KeysTool(t, a) == Ok(u)
    ensures KeysTool(t, a + b) == KeysTool(u, b)
    decreases |a|
  {
    if a == [] {
      assert a + b == b;
    } else {
      assert (a + b)[1..] == a[1..] + b;
      KeysAppend(ItemTool(t, a[0]).value, a[1..], b, u);
    }
  }

  /** One more line. */
  lemma FillsMore(t: Tool, lines: seq<Line>, line: Line, u: Tool, v: Tool)
    requires KeysTool(t, KeyItems(lines)) == Ok(u) && ApplyKey(u, line.key, line.value) == Ok(v)
    ensures KeysTool(t, KeyItems(lines + [line])) == Ok(v)
  {
    var item := Assign(line.key, line.value);
    assert KeyItems(lines + [line]) == KeyItems(lines) + [item];
    KeysAppend(t, KeyItems(lines), [item], u);
    assert [item][1..] == [];
  }

  lemma FillsThree(t0: Tool, a: Line, b: Line, c: Line, t1: Tool, t2: Tool, t3: Tool)
    requires ApplyKey(t0, a.key, a.value) == Ok(t1) && ApplyKey(t1, b.key, b.value) == Ok(t2)
    requires ApplyKey(t2, c.key, c.value) == Ok(t3)
    ensures KeysTool(t0, KeyItems([a, b, c])) == Ok(t3)
  {
    FillsMore(t0, [], a, t0, t1);
    assert [] + [a] == [a];
    FillsMore(t0, [a], b, t1, t2);
    assert [a] + [b] == [a, b];
    FillsMore(t0, [a, b], c, t2, t3);
    assert [a, b] + [c] == [a, b, c];
  }

  lemma FillsTwoMore(t0: Tool, lines: seq<Line>, a: Line, b: Line, t1: Tool, t2: Tool, t3: Tool)
    requires KeysTool(t0, KeyItems(lines)) == Ok(t1)
    requires ApplyKey(t1, a.key, a.value) == Ok(t2) && ApplyKey(t2, b.key, b.value) == Ok(t3)
    ensures KeysTool(t0, KeyItems(lines + [a, b])) == Ok(t3)
  {
    FillsMore(t0, lines, a, t1, t2);
    FillsMore(t0, lines + [a], b, t2, t3);
    assert lines + [a] + [b] == lines + [a, b];
  }

  function WithLabels(t: Tool, u: Tool): Tool {
    t.(defaultFamily := u.defaultFamily, defaultVersion := u.defaultVersion, defaultAlias := u.defaultAlias)
  }

  lemma LabelsFill(shown: Printable, t: Tool, u: Tool)
    requires IsLower(u.defaultFamily) && IsLower(u.defaultVersion) && IsLower(u.defaultAlias)
    ensures KeysTool(t, KeyItems(LabelKeys(shown, u))) == Ok(WithLabels(t, u))
  {
    var t1 := t.(defaultFamily := u.defaultFamily);
    var t2 := t1.(defaultVersion := u.defaultVersion);
    LabelKeysFill(shown, t, u.defaultFamily);
    LabelKeysFill(shown, t1, u.defaultVersion);
    LabelKeysFill(shown, t2, u.defaultAlias);
    var ls := LabelKeys(shown, u);
    FillsThree(t, ls[0], ls[1], ls[2], t1, t2, WithLabels(t, u));
  }

  function WithImage(t: Tool, u: Tool): Tool {
    t.(image := u.image, provider := u.provider, role := u.role, command := u.command, argsPrefix := u.argsPrefix)
  }

  lemma ImageFills(shown: Printable, t: Tool, u: Tool)
    requires IsLower(u.provider) && IsLower(u.role)
    ensures KeysTool(t, KeyItems(ImageKeys(shown, u))) == Ok(WithImage(t, u))
  {
    var t1 := t.(image := u.image);
    var t2 := t1.(provider := u.provider);
    var t3 := t2.(role := u.role);
    var t4 := t3.(command := u.command);
    ImageKeyFills(shown, t, u.image);
    ModeKeysFill(shown, t1, u.provider);
    ModeKeysFill(shown, t2, u.role);
    CommandKeysFill(shown, t3, u.command);
    CommandKeysFill(shown, t4, u.argsPrefix);
    var ls := ImageKeys(shown, u);
    FillsThree(t, ls[0], ls[1], ls[2], t1, t2, t3);
    FillsTwoMore(t, [ls[0], ls[1], ls[2]], ls[3], ls[4], t3, t4, WithImage(t, u));
    assert ls == [ls[0], ls[1], ls[2]] + [ls[3], ls[4]];
  }

  function WithPaths(t: Tool, u: Tool): Tool {
    t.(pathNext := u.pathNext, pathEquals := u.pathEquals, pathLast := u.pathLast, pathLastIfAny := u.pathLastIfAny)
  }

  lemma PathsFill(shown: Printable, t: Tool, u: Tool)
    ensures KeysTool(t, KeyItems(PathKeys(shown, u))) == Ok(WithPaths(t, u))
  {
    var t1 := t.(pathNext := u.pathNext);
    var t2 := t1.(pathEquals := u.pathEquals);
    var t3 := t2.(pathLast := u.pathLast);
    PathKeysFill(shown, t, u.pathNext);
    PathKeysFill(shown, t1, u.pathEquals);
    PathLastFills(t2, u.pathLast);
    PathKeysFill(shown, t3, u.pathLastIfAny);
    var ls := PathKeys(shown, u);
    FillsThree(t, ls[0], ls[1], ls[2], t1, t2, t3);
    FillsMore(t, [ls[0], ls[1], ls[2]], ls[3], t3, WithPaths(t, u));
    assert ls == [ls[0], ls[1], ls[2]] + [ls[3]];
  }

  function WithEnv(t: Tool, u: Tool): Tool {
    t.(envPrefixes := u.envPrefixes, envNames := u.envNames, envSet := u.envSet, projectMarkers := u.projectMarkers,
       projectRootMode := u.projectRootMode)
  }

  lemma EnvFills(shown: Printable, t: Tool, u: Tool)
    requires IsLower(u.projectRootMode)
    requires forall i :: 0 <= i < |u.envSet| ==> ValidEnvAssignment(u.envSet[i])
    requires forall i :: 0 <= i < |u.projectMarkers| ==> ValidProjectMarker(u.projectMarkers[i])
    ensures KeysTool(t, KeyItems(EnvKeys(shown, u))) == Ok(WithEnv(t, u))
  {
    var t1 := t.(envPrefixes := u.envPrefixes);
    var t2 := t1.(envNames := u.envNames);
    var t3 := t2.(envSet := u.envSet);
    var t4 := t3.(projectMarkers := u.projectMarkers);
    EnvKeysFill(shown, t, u.envPrefixes);
    EnvKeysFill(shown, t1, u.envNames);
    EnvSetFills(shown, t2, u.envSet);
    MarkersFill(shown, t3, u.projectMarkers);
    ModeKeysFill(shown, t4, u.projectRootMode);
    var ls := EnvKeys(shown, u);
    FillsThree(t, ls[0], ls[1], ls[2], t1, t2, t3);
    FillsTwoMore(t, [ls[0], ls[1], ls[2]], ls[3], ls[4], t3, t4, WithEnv(t, u));
    assert ls == [ls[0], ls[1], ls[2]] + [ls[3], ls[4]];
  }

  function WithState(t: Tool, u: Tool): Tool {
    t.(stateGroup := u.stateGroup, projectVolumes := u.projectVolumes, sharedVolumes := u.sharedVolumes,
       hostMounts := u.hostMounts, cwdMode := u.cwdMode)
  }

  lemma StateFills(shown: Printable, t: Tool, u: Tool)
    requires IsLower(u.stateGroup) && IsLower(u.cwdMode)
    ensures KeysTool(t, KeyItems(StateKeys(shown, u))) == Ok(WithState(t, u))
  {
    var t1 := t.(stateGroup := u.stateGroup);
    var t2 := t1.(projectVolumes := u.projectVolumes);
    var t3 := t2.(sharedVolumes := u.sharedVolumes);
    var t4 := t3.(hostMounts := u.hostMounts);
    ModeKeysFill(shown, t, u.stateGroup);
    VolumeKeysFill(shown, t1, u.projectVolumes);
    VolumeKeysFill(shown, t2, u.sharedVolumes);
    VolumeKeysFill(shown, t3, u.hostMounts);
    ModeKeysFill(shown, t4, u.cwdMode);
    var ls := StateKeys(shown, u);
    FillsThree(t, ls[0], ls[1], ls[2], t1, t2, t3);
    FillsTwoMore(t, [ls[0], ls[1], ls[2]], ls[3], ls[4], t3, t4, WithState(t, u));
    assert ls == [ls[0], ls[1], ls[2]] + [ls[3], ls[4]];
  }

  /** The keys of a section fill every field, each with its own value. */
  lemma ToolKeysFill(shown: Printable, name: string, t: Tool)
    requires ToolShape(name, t)
    ensures KeysTool(FreshTool(name), KeyItems(ToolKeys(shown, t))) == Ok(t)
  {
    var t0 := FreshTool(name);
    var t1 := WithLabels(t0, t);
    var t2 := WithImage(t1, t);
    var t3 := WithPaths(t2, t);
    var t4 := WithEnv(t3, t);
    LabelsFill(shown, t0, t);
    ImageFills(shown, t1, t);
    PathsFill(shown, t2, t);
    EnvFills(shown, t3, t);
    StateFills(shown, t4, t);
    AllFilled(name, t);
    FillsTogether(t0, LabelKeys(shown, t), ImageKeys(shown, t), t1, t2);
    FillsTogether(t0, LabelKeys(shown, t) + ImageKeys(shown, t), PathKeys(shown, t), t2, t3);
    FillsTogether(t0, LabelKeys(shown, t) + ImageKeys(shown, t) + PathKeys(shown, t), EnvKeys(shown, t), t3, t4);
    FillsTogether(t0, LabelKeys(shown, t) + ImageKeys(shown, t) + PathKeys(shown, t) + EnvKeys(shown, t), StateKeys(shown, t),
                  t4, t);
  }

  lemma AllFilled(name: string, t: Tool)
    requires t.name == name && t.trustedProjectRoot == ""
    ensures WithState(WithEnv(WithPaths(WithImage(WithLabels(FreshTool(name), t), t), t), t), t) == t
  {
  }

  lemma FillsTogether(t: Tool, a: seq<Line>, b: seq<Line>, u: Tool, v: Tool)
    requires KeysTool(t, KeyItems(a)) == Ok(u) && KeysTool(u, KeyItems(b)) == Ok(v)
    ensures KeysTool(t, KeyItems(a + b)) == Ok(v)
  {
    KeyItemsAppend(a, b);
    KeysAppend(t, KeyItems(a), KeyItems(b), u);
  }

  lemma KeyItemsAppend(a: seq<Line>, b: seq<Line>)
    ensures KeyItems(a + b) == KeyItems(a) + KeyItems(b)
  {
  }

  // ---------------------------------------------------------------- as text

  function Core(line: Line): string {
    line.key + " = " + line.value
  }

  /** The lines of a tool section, without terminators. */
  function ToolBody(shown: Printable, t: Tool): seq<string> {
    ["[tools." + t.name + "]"] + Cores(ToolKeys(shown, t))
  }

  function Cores(lines: seq<Line>): (r: seq<string>)
    ensures |r| == |lines|
  {
    seq(|lines|, i requires 0 <= i < |lines| => Core(lines[i]))
  }

  function FamilyBody(shown: Printable, family: string, version: string): seq<string> {
    ["[defaults." + family + "]", "version" + " = " + Quote(shown, version)]
  }

  function SchemaText(schema: nat): string {
    "schema_version" + " = " + D.Itoa(schema)
  }

  /** A line the scanner passes over whole, and its printed form. */
  predicate Plain(line: Line) {
    PlainKey(line.key) && ClosedValue(line.value) && Unterminated(line.value)
  }

  predicate AllPlain(lines: seq<Line>) {
    forall i :: 0 <= i < |lines| ==> Plain(lines[i])
  }

  lemma QuotePlain(shown: Printable, key: string, v: string)
    requires PlainKey(key)
    ensures Plain(Line(key, Quote(shown, v)))
  {
    QuoteIsClosed(shown, v);
    NoNewline(Quote(shown, v));
  }

  lemma ArrayPlain(shown: Printable, key: string, vs: seq<string>)
    requires PlainKey(key)
    ensures Plain(Line(key, Array(shown, vs)))
  {
    ArrayIsClosed(shown, vs);
    NoNewline(Array(shown, vs));
  }

  lemma NoNewline(s: string)
    requires '\n' !in s
    ensures Unterminated(s)
  {
  }

  lemma BoolPlain(v: bool)
    ensures Plain(Line("path_last", if v then "true" else "false"))
  {
    var yes, no := "true", "false";
    WordIsClosed(yes);
    WordIsClosed(no);
    assert PlainKey("path_last");
  }

  lemma WordIsClosed(s: string)
    requires s != "" && forall i :: 0 <= i < |s| ==> 'a' <= s[i] <= 'z'
    ensures ClosedValue(s) && Unterminated(s)
  {
    assert forall c :: c in s ==> 'a' <= c <= 'z';
    PlainText(s);
  }

  lemma ToolKeysPlain(shown: Printable, t: Tool)
    ensures AllPlain(ToolKeys(shown, t))
  {
    LabelsPlain(shown, t);
    ImagePlain(shown, t);
    PathsPlain(shown, t);
    EnvPlain(shown, t);
    StatePlain(shown, t);
  }

  lemma LabelsNames()
    ensures PlainKey("default_family") && PlainKey("default_version")
    ensures PlainKey("default_alias")
  {
    LabelsMoreNames();
  }

  lemma LabelsMoreNames()
    ensures PlainKey("default_alias")
  {
  }

  lemma LabelsPlain(shown: Printable, t: Tool)
    ensures AllPlain(LabelKeys(shown, t))
  {
    LabelsNames();
    QuotePlain(shown, "default_family", t.defaultFamily);
    QuotePlain(shown, "default_version", t.defaultVersion);
    QuotePlain(shown, "default_alias", t.defaultAlias);
  }

  lemma ImageNames()
    ensures PlainKey("image") && PlainKey("provider") && PlainKey("role")
    ensures PlainKey("command") && PlainKey("args_prefix")
  {
    ImageMoreNames();
  }

  lemma ImageMoreNames()
    ensures PlainKey("command") && PlainKey("args_prefix")
  {
  }

  lemma ImagePlain(shown: Printable, t: Tool)
    ensures AllPlain(ImageKeys(shown, t))
  {
    ImageNames();
    QuotePlain(shown, "image", t.image);
    QuotePlain(shown, "provider", t.provider);
    QuotePlain(shown, "role", t.role);
    ArrayPlain(shown, "command", t.command);
    ArrayPlain(shown, "args_prefix", t.argsPrefix);
  }

  lemma PathsNames()
    ensures PlainKey("path_next") && PlainKey("path_equals")
    ensures PlainKey("path_last_if_any")
  {
    PathsMoreNames();
  }

  lemma PathsMoreNames()
    ensures PlainKey("path_last_if_any")
  {
  }

  lemma PathsPlain(shown: Printable, t: Tool)
    ensures AllPlain(PathKeys(shown, t))
  {
    PathsNames();
    ArrayPlain(shown, "path_next", t.pathNext);
    ArrayPlain(shown, "path_equals", t.pathEquals);
    BoolPlain(t.pathLast);
    ArrayPlain(shown, "path_last_if_any", t.pathLastIfAny);
  }

  lemma EnvNames()
    ensures PlainKey("env_prefixes") && PlainKey("env_names") && PlainKey("env_set")
    ensures PlainKey("project_markers") && PlainKey("project_root_mode")
  {
    EnvMoreNames();
  }

  lemma EnvMoreNames()
    ensures PlainKey("project_markers") && PlainKey("project_root_mode")
  {
  }

  lemma EnvPlain(shown: Printable, t: Tool)
    ensures AllPlain(EnvKeys(shown, t))
  {
    EnvNames();
    ArrayPlain(shown, "env_prefixes", t.envPrefixes);
    ArrayPlain(shown, "env_names", t.envNames);
    ArrayPlain(shown, "env_set", t.envSet);
    ArrayPlain(shown, "project_markers", t.projectMarkers);
    QuotePlain(shown, "project_root_mode", t.projectRootMode);
  }

  lemma StateNames()
    ensures PlainKey("state_group") && PlainKey("project_volumes") && PlainKey("shared_volumes")
    ensures PlainKey("host_mounts") && PlainKey("cwd_mode")
  {
    StateMoreNames();
  }

  lemma StateMoreNames()
    ensures PlainKey("host_mounts") && PlainKey("cwd_mode")
  {
  }

  lemma StatePlain(shown: Printable, t: Tool)
    ensures AllPlain(StateKeys(shown, t))
  {
    StateNames();
    QuotePlain(shown, "state_group", t.stateGroup);
    ArrayPlain(shown, "project_volumes", t.projectVolumes);
    ArrayPlain(shown, "shared_volumes", t.sharedVolumes);
    ArrayPlain(shown, "host_mounts", t.hostMounts);
    QuotePlain(shown, "cwd_mode", t.cwdMode);
  }

  // -------------------- what is read of a line

  /** A closed text that fits is read as what it says. */
  lemma ReadClosed(core: string)
    requires ClosedValue(core) && Unterminated(core) && FitsScanner(core)
    ensures Read(core) == ItemOf(core)
  {
    var nothing, newline := "", "\n";
    FitsWithNewline(core);
    assert core + (nothing + nothing) == core;
    M.ReadCore(core, nothing, nothing, newline);
    FitsWithout(core, newline);
  }

  lemma ReadLine(line: Line)
    requires Plain(line) && FitsScanner(Core(line))
    ensures Read(Core(line)) == Assign(line.key, line.value)
  {
    ClosedAssign(line.key, line.value);
    CoreUnterminated(line);
    ReadClosed(Core(line));
    M.S.AssignOfRendered(line.key, line.value);
  }

  lemma CoreUnterminated(line: Line)
    requires Plain(line)
    ensures Unterminated(Core(line))
  {
    M.AssignUnterminated(line.key, line.value);
  }

  lemma HeaderReads(name: string)
    requires ValidToolName(name)
    ensures var core := "[tools." + name + "]";
            ClosedValue(core) && Unterminated(core) && ItemOf(core) == ToolHeader(name)
  {
    HeaderText(name);
    M.HeaderCoreReads(name);
    HeaderUnterminated(name);
  }

  lemma HeaderText(name: string)
    ensures "[tools." + name + "]" == M.HeaderCore(name)
  {
  }

  lemma HeaderUnterminated(name: string)
    requires ValidToolName(name)
    ensures Unterminated("[tools." + name + "]")
  {
    assert forall i :: 0 <= i < |name| ==> NameChar(name[i]);
  }

  lemma FamilyHeaderReads(family: string)
    requires ValidToolName(family)
    ensures var core := "[defaults." + family + "]";
            ClosedValue(core) && Unterminated(core) && ItemOf(core) == FamilyHeader(family)
  {
    var section := "defaults." + family;
    assert "[defaults." + family + "]" == "[" + section + "]";
    FamilyIsPlain(family);
    HeaderIsClosed(section);
    HeaderOfPlain(section);
    FamilyItem(family);
  }

  lemma FamilyIsPlain(family: string)
    requires ValidToolName(family)
    ensures PlainSection("defaults." + family) && Unterminated("[" + ("defaults." + family) + "]")
  {
    var section := "defaults." + family;
    assert forall c :: c in family ==> NameChar(c);
    assert section[|section| - 1] == family[|family| - 1] && family[|family| - 1] in family;
    assert forall i :: 0 <= i < |family| ==> NameChar(family[i]);
  }

  lemma FamilyItem(family: string)
    requires ValidToolName(family)
    ensures HeaderItem("defaults." + family) == FamilyHeader(family)
  {
    var section := "defaults." + family;
    assert section[|DEFAULTS|..] == family;
    assert section[0] == 'd' && TOOLS[0] == 't';
    assert NameChar(family[0]) && NameChar(family[|family| - 1]);
    TrimTrimmed(family);
    M.NamesAreVersions(family);
  }

  predicate BodyFits(body: seq<string>) {
    forall i :: 0 <= i < |body| ==> FitsScanner(body[i])
  }

  lemma CoresRead(lines: seq<Line>)
    requires AllPlain(lines) && BodyFits(Cores(lines))
    ensures Items(Cores(lines)) == KeyItems(lines)
  {
    forall i | 0 <= i < |lines| ensures Items(Cores(lines))[i] == KeyItems(lines)[i] {
      assert FitsScanner(Cores(lines)[i]);
      ReadLine(lines[i]);
    }
  }

  lemma CoresUnterminated(lines: seq<Line>)
    requires AllPlain(lines)
    ensures AllUnterminated(Cores(lines))
  {
    forall i | 0 <= i < |lines| ensures Unterminated(Cores(lines)[i]) { CoreUnterminated(lines[i]); }
  }

  /** A printed section that fits defines its tool, wherever it stands. */
  lemma ToolBodyYields(shown: Printable, name: string, t: Tool)
    requires ToolShape(name, t) && BodyFits(ToolBody(shown, t))
    ensures YieldsTool(Items(ToolBody(shown, t)), name, t)
  {
    var body, keys := ToolBody(shown, t), ToolKeys(shown, t);
    assert body == [body[0]] + Cores(keys);
    assert forall i :: 0 <= i < |keys| ==> Cores(keys)[i] == body[i + 1];
    HeaderReads(name);
    ReadClosed(body[0]);
    ToolKeysPlain(shown, t);
    CoresRead(keys);
    ItemsAppend([body[0]], Cores(keys));
    assert Items([body[0]]) == [ToolHeader(name)];
    ToolKeysFill(shown, name, t);
    KeysYield(name, t, keys);
  }

  lemma KeysYield(name: string, t: Tool, keys: seq<Line>)
    requires ValidToolName(name) && !ReservedToolName(name) && KeysTool(FreshTool(name), KeyItems(keys)) == Ok(t)
    ensures YieldsTool([ToolHeader(name)] + KeyItems(keys), name, t)
  {
    var items := [ToolHeader(name)] + KeyItems(keys);
    assert items[1..] == KeyItems(keys);
    YieldsKeys(items, name, t);
  }

  lemma ToolBodyUnterminated(shown: Printable, name: string, t: Tool)
    requires ToolShape(name, t)
    ensures AllUnterminated(ToolBody(shown, t))
  {
    HeaderReads(name);
    ToolKeysPlain(shown, t);
    CoresUnterminated(ToolKeys(shown, t));
  }

  lemma VersionLine(shown: Printable, version: string)
    ensures Plain(Line("version", Quote(shown, version)))
    ensures "version" + " = " + Quote(shown, version) == Core(Line("version", Quote(shown, version)))
  {
    QuotePlain(shown, "version", version);
  }

  lemma FamilyBodyYields(shown: Printable, family: string, version: string)
    requires ValidToolName(family) && ValidVersion(version) && BodyFits(FamilyBody(shown, family, version))
    ensures YieldsFamily(Items(FamilyBody(shown, family, version)), family, version)
  {
    FamilyBodyReads(shown, family, version);
    ParseQuotedQuote(shown, version);
    FamilyYields(family, Quote(shown, version), version);
  }

  lemma FamilyBodyReads(shown: Printable, family: string, version: string)
    requires ValidToolName(family) && BodyFits(FamilyBody(shown, family, version))
    ensures Items(FamilyBody(shown, family, version)) == [FamilyHeader(family)] + [Assign("version", Quote(shown, version))]
  {
    var body := FamilyBody(shown, family, version);
    FamilyHeaderReads(family);
    VersionLine(shown, version);
    assert FitsScanner(body[0]) && FitsScanner(body[1]);
    ReadTwo(body[0], body[1], FamilyHeader(family), Line("version", Quote(shown, version)));
  }

  lemma ReadTwo(head: string, second: string, item: Item, line: Line)
    requires ClosedValue(head) && Unterminated(head) && FitsScanner(head) && ItemOf(head) == item
    requires Plain(line) && second == Core(line) && FitsScanner(second)
    ensures Items([head, second]) == [item] + [Assign(line.key, line.value)]
  {
    ReadClosed(head);
    ReadLine(line);
  }

  lemma FamilyYields(family: string, value: string, version: string)
    requires ValidToolName(family) && ParseQuoted(value) == Some(version) && ValidVersion(version)
    ensures YieldsFamily([FamilyHeader(family)] + [Assign("version", value)], family, version)
  {
    var items := [FamilyHeader(family)] + [Assign("version", value)];
    forall st: State | st.Reading? && family !in st.defaults
      ensures Run(st, items) == Reading(st.schema, st.tools, st.defaults[family := version], InDefault(family))
    {
      RunAppend(st, [FamilyHeader(family)], [Assign("version", value)]);
      RunOne(st, FamilyHeader(family));
      RunOne(Step(st, FamilyHeader(family)), Assign("version", value));
      assert st.defaults[family := ""][family := version] == st.defaults[family := version];
    }
  }

  lemma FamilyBodyUnterminated(shown: Printable, family: string, version: string)
    requires ValidToolName(family)
    ensures AllUnterminated(FamilyBody(shown, family, version))
  {
    FamilyHeaderReads(family);
    VersionLine(shown, version);
    CoreUnterminated(Line("version", Quote(shown, version)));
  }

  // ---------------------------------------------------------------- a whole registry

  function ToolBodies(shown: Printable, tools: map<string, Tool>): map<string, seq<string>> {
    map n | n in tools :: ToolBody(shown, tools[n])
  }

  function FamilyBodies(shown: Printable, defaults: map<string, string>): map<string, seq<string>> {
    map f | f in defaults :: FamilyBody(shown, f, defaults[f])
  }

  /** The schema version, then the families and the tools in the given orders. */
  function RegistryLines(shown: Printable, reg: Registry, families: seq<string>, names: seq<string>): seq<string> {
    [SchemaText(reg.schema) + "\n"]
    + (AppendSections(FamilyBodies(shown, reg.defaults), families, "\n")
       + AppendSections(ToolBodies(shown, reg.tools), names, "\n"))
  }

  /** What a parsed registry can hold. */
  predicate RegistryShape(reg: Registry) {
    && 1 <= reg.schema <= MAX_SCHEMA_VERSION
    && (forall n :: n in reg.tools ==> ToolShape(n, reg.tools[n]))
    && (forall f :: f in reg.defaults ==> ValidToolName(f) && ValidVersion(reg.defaults[f]))
  }

  /** The names, each once. */
  ghost predicate Lists<V>(names: seq<string>, all: map<string, V>) {
    && (forall n :: n in all <==> n in names)
    && (forall i, j :: 0 <= i < j < |names| ==> names[i] != names[j])
  }

  lemma ListsLacks<V>(names: seq<string>, all: map<string, V>, none: map<string, V>)
    requires Lists(names, all) && none == map[]
    ensures Lacks(names, all, none) && none + Pick(all, names) == all
  {
    assert forall i :: 0 <= i < |names| ==> names[i] in names;
  }

  /** The sections fit when the text does. */
  lemma {:induction false} BodiesFit(sections: map<string, seq<string>>, names: seq<string>, n: string)
    requires AllFit(AppendSections(sections, names, "\n")) && n in names && n in sections && AllUnterminated(sections[n])
    ensures BodyFits(sections[n])
    decreases |names|
  {
    var init, last := names[..|names| - 1], names[|names| - 1];
    assert names == init + [last];
    AllFitAppend(AppendSections(sections, init, "\n"), SectionLines(BodyOf(sections, last), "\n"));
    if n == last {
      OneBodyFits(sections[n]);
    } else {
      BodiesFit(sections, init, n);
    }
  }

  lemma OneBodyFits(body: seq<string>)
    requires AllUnterminated(body) && AllFit(SectionLines(body, "\n"))
    ensures BodyFits(body)
  {
    forall i | 0 <= i < |body| ensures FitsScanner(body[i]) {
      assert SectionLines(body, "\n")[i + 1] == body[i] + "\n";
      FitsWithout(body[i], "\n");
    }
  }

  lemma ToolSectionsReady(shown: Printable, tools: map<string, Tool>, names: seq<string>)
    requires forall n :: n in tools ==> ToolShape(n, tools[n])
    requires Lists(names, tools) && AllFit(AppendSections(ToolBodies(shown, tools), names, "\n"))
    ensures forall n :: n in tools ==> ToolsSection(ToolBodies(shown, tools), tools, n)
  {
    forall n | n in tools ensures ToolsSection(ToolBodies(shown, tools), tools, n) {
      ToolBodyUnterminated(shown, n, tools[n]);
      BodiesFit(ToolBodies(shown, tools), names, n);
      ToolBodyYields(shown, n, tools[n]);
    }
  }

  lemma FamilySectionsReady(shown: Printable, defaults: map<string, string>, families: seq<string>)
    requires forall f :: f in defaults ==> ValidToolName(f) && ValidVersion(defaults[f])
    requires Lists(families, defaults) && AllFit(AppendSections(FamilyBodies(shown, defaults), families, "\n"))
    ensures forall f :: f in defaults ==> FamiliesSection(FamilyBodies(shown, defaults), defaults, f)
  {
    forall f | f in defaults ensures FamiliesSection(FamilyBodies(shown, defaults), defaults, f) {
      FamilyBodyUnterminated(shown, f, defaults[f]);
      BodiesFit(FamilyBodies(shown, defaults), families, f);
      FamilyBodyYields(shown, f, defaults[f]);
    }
  }

  lemma RunToolSections(shown: Printable, tools: map<string, Tool>, names: seq<string>, st: State)
    requires forall n :: n in tools ==> ToolShape(n, tools[n])
    requires st.Reading? && st.tools == map[]
    requires Lists(names, tools) && AllFit(AppendSections(ToolBodies(shown, tools), names, "\n"))
    ensures var end := Run(st, Items(AppendSections(ToolBodies(shown, tools), names, "\n")));
            end.Reading? && end.schema == st.schema && end.defaults == st.defaults && end.tools == tools
  {
    ToolSectionsReady(shown, tools, names);
    ListsLacks(names, tools, st.tools);
    RunTools(st, ToolBodies(shown, tools), tools, names, "\n");
  }

  lemma RunFamilySections(shown: Printable, defaults: map<string, string>, families: seq<string>, st: State)
    requires forall f :: f in defaults ==> ValidToolName(f) && ValidVersion(defaults[f])
    requires st.Reading? && st.defaults == map[]
    requires Lists(families, defaults) && AllFit(AppendSections(FamilyBodies(shown, defaults), families, "\n"))
    ensures var end := Run(st, Items(AppendSections(FamilyBodies(shown, defaults), families, "\n")));
            end.Reading? && end.schema == st.schema && end.tools == st.tools && end.defaults == defaults
  {
    FamilySectionsReady(shown, defaults, families);
    ListsLacks(families, defaults, st.defaults);
    RunFamilies(st, FamilyBodies(shown, defaults), defaults, families, "\n");
  }

  lemma RunSchemaText(schema: nat)
    requires 1 <= schema <= MAX_SCHEMA_VERSION && FitsScanner(SchemaText(schema) + "\n")
    ensures Run(Start, Items([SchemaText(schema) + "\n"])) == Reading(schema, map[], map[], Top)
  {
    SchemaReads(schema);
    RunLine(SchemaText(schema) + "\n");
    SchemaStep(D.Itoa(schema), schema);
  }

  lemma RunLine(line: string)
    ensures Run(Start, Items([line])) == Step(Start, Read(line))
  {
    assert Items([line]) == [Read(line)];
    RunOne(Start, Read(line));
  }

  lemma SchemaStep(number: string, schema: nat)
    requires Atoi(number) == Some(schema) && 1 <= schema <= MAX_SCHEMA_VERSION
    ensures Step(Start, Assign("schema_version", number)) == Reading(schema, map[], map[], Top)
  {
  }

  lemma SchemaReads(schema: nat)
    requires 1 <= schema <= MAX_SCHEMA_VERSION && FitsScanner(SchemaText(schema) + "\n")
    ensures Read(SchemaText(schema) + "\n") == Assign("schema_version", D.Itoa(schema))
    ensures Atoi(D.Itoa(schema)) == Some(schema)
  {
    NumberIsPlain(schema);
    M.LabelKeysArePlain();
    SchemaKeyReads("schema_version", D.Itoa(schema));
  }

  lemma SchemaKeyReads(key: string, number: string)
    requires PlainKey(key) && ClosedValue(number) && Unterminated(number)
    requires FitsScanner(key + " = " + number + "\n")
    ensures Read(key + " = " + number + "\n") == Assign(key, number)
  {
    M.ReadAssignCore(key, number, "\n");
  }

  lemma SchemaTerminated(schema: nat)
    requires schema <= MAX_INT
    ensures AllTerminated([SchemaText(schema) + "\n"])
  {
    NumberIsPlain(schema);
    M.LabelKeysArePlain();
    SchemaKeyTerminated("schema_version", D.Itoa(schema));
  }

  lemma SchemaKeyTerminated(key: string, number: string)
    requires PlainKey(key) && ClosedValue(number) && Unterminated(number)
    ensures AllTerminated([key + " = " + number + "\n"])
  {
    CoreUnterminated(Line(key, number));
    LineTerminated(key + " = " + number, "\n");
  }

  lemma NumberIsPlain(n: nat)
    requires n <= MAX_INT
    ensures Atoi(D.Itoa(n)) == Some(n) && ClosedValue(D.Itoa(n)) && Unterminated(D.Itoa(n))
  {
    D.ItoaRoundTrip(n);
    var s := D.Itoa(n);
    assert s[0] in s && s[|s| - 1] in s && forall c :: c in s ==> IsDigit(c);
    PlainText(s);
  }

  lemma ToolsTerminated(shown: Printable, tools: map<string, Tool>, names: seq<string>)
    requires forall n :: n in tools ==> ToolShape(n, tools[n])
    ensures AllTerminated(AppendSections(ToolBodies(shown, tools), names, "\n"))
  {
    forall n | n in tools ensures AllUnterminated(ToolBody(shown, tools[n])) { ToolBodyUnterminated(shown, n, tools[n]); }
    SectionsTerminated(ToolBodies(shown, tools), names, "\n");
  }

  lemma FamiliesTerminated(shown: Printable, defaults: map<string, string>, families: seq<string>)
    requires forall f :: f in defaults ==> ValidToolName(f)
    ensures AllTerminated(AppendSections(FamilyBodies(shown, defaults), families, "\n"))
  {
    forall f | f in defaults ensures AllUnterminated(FamilyBody(shown, f, defaults[f])) {
      FamilyBodyUnterminated(shown, f, defaults[f]);
    }
    SectionsTerminated(FamilyBodies(shown, defaults), families, "\n");
  }

  lemma RegistryTerminated(shown: Printable, reg: Registry, families: seq<string>, names: seq<string>)
    requires RegistryShape(reg)
    ensures AllTerminated(RegistryLines(shown, reg, families, names))
  {
    SchemaTerminated(reg.schema);
    FamiliesTerminated(shown, reg.defaults, families);
    ToolsTerminated(shown, reg.tools, names);
  }

  lemma RunRegistry(shown: Printable, reg: Registry, families: seq<string>, names: seq<string>)
    requires RegistryShape(reg) && Lists(families, reg.defaults) && Lists(names, reg.tools)
    requires AllFit(RegistryLines(shown, reg, families, names))
    ensures var end := Run(Start, Items(RegistryLines(shown, reg, families, names)));
            end.Reading? && end.schema == reg.schema && end.tools == reg.tools && end.defaults == reg.defaults
  {
    var head := [SchemaText(reg.schema) + "\n"];
    var fs := AppendSections(FamilyBodies(shown, reg.defaults), families, "\n");
    var ts := AppendSections(ToolBodies(shown, reg.tools), names, "\n");
    AllFitAppend(head, fs + ts);
    AllFitAppend(fs, ts);
    assert FitsScanner(head[0]);
    RunSchemaText(reg.schema);
    RunFamilySections(shown, reg.defaults, families, Run(Start, Items(head)));
    RunToolSections(shown, reg.tools, names, Run(Run(Start, Items(head)), Items(fs)));
    RunLines(Start, head, fs + ts);
    RunLines(Run(Start, Items(head)), fs, ts);
  }

  /** The checks on a whole registry. */
  predicate Acceptable(reg: Registry) {
    && reg.tools != map[] && (forall n :: n in reg.tools ==> ToolOk(reg.tools[n])) && DefaultsOk(reg)
  }

  /** A printed registry, in whatever order, is accepted exactly when it is acceptable and its
      lines fit the scanner, and then reads back as itself. */
  lemma ParsePrinted(shown: Printable, reg: Registry, families: seq<string>, names: seq<string>)
    requires RegistryShape(reg) && Lists(families, reg.defaults) && Lists(names, reg.tools)
    ensures var parsed := ParseTOML(Concat(RegistryLines(shown, reg, families, names)));
            if AllFit(RegistryLines(shown, reg, families, names)) && Acceptable(reg) then parsed == Ok(reg) else parsed.Err?
  {
    var lines := RegistryLines(shown, reg, families, names);
    RegistryTerminated(shown, reg, families, names);
    RunOfConcat(lines);
    if AllFit(lines) {
      RunRegistry(shown, reg, families, names);
      FinishExactly(Run(Start, Items(lines)), reg);
    } else {
      TooLongRejects(Start, lines);
    }
  }

  lemma FinishExactly(end: State, reg: Registry)
    requires end.Reading? && end.schema == reg.schema && end.tools == reg.tools && end.defaults == reg.defaults
    ensures if Acceptable(reg) then Finish(end) == Ok(reg) else Finish(end).Err?
  {
  }

  // ---------------------------------------------------------------- every accepted registry

  /** What the parser holds at every line; a family may still lack its version. */
  predicate StateShape(st: State) {
    st.Reading? ==>
      && 1 <= st.schema <= MAX_SCHEMA_VERSION
      && (forall n :: n in st.tools ==> ToolShape(n, st.tools[n]))
      && (forall f :: f in st.defaults ==> ValidToolName(f) && (st.defaults[f] == "" || ValidVersion(st.defaults[f])))
      && (st.at.InTool? ==> st.at.name in st.tools)
      && (st.at.InDefault? ==> st.at.family in st.defaults)
  }

  lemma KeyKeepsShape(name: string, t: Tool, key: string, value: string)
    requires ToolShape(name, t) && ApplyKey(t, key, value).Ok?
    ensures ToolShape(name, ApplyKey(t, key, value).value)
  {
    if key == "path_last" {
    } else if IsQuotedKey(key) {
      QuotedKeepsShape(name, t, key, ParseQuoted(value).value);
    } else {
      ArrayKeepsShape(name, t, key, ParseStringArray(value).value);
    }
  }

  lemma ArrayKeepsShape(name: string, t: Tool, key: string, v: seq<string>)
    requires ToolShape(name, t) && IsArrayKey(key) && ArrayValueOk(key, v)
    ensures ToolShape(name, SetArray(t, key, v))
  {
  }

  lemma QuotedKeepsShape(name: string, t: Tool, key: string, v: string)
    requires ToolShape(name, t) && IsQuotedKey(key)
    ensures ToolShape(name, SetQuoted(t, key, v))
  {
    LowerIdempotent(v);
  }

  lemma StepKeepsShape(st: State, item: Item)
    requires StateShape(st)
    ensures StateShape(Step(st, item))
  {
    if st.Reading? {
      match item {
        case ToolHeader(name) => FreshShape(name);
        case Assign(key, value) =>
          if st.at.InTool? { ToolKeeps(st, key, value); }
        case _ =>
      }
    }
  }

  lemma FreshShape(name: string)
    ensures ValidToolName(name) && !ReservedToolName(name) ==> ToolShape(name, FreshTool(name))
  {
    var provider := "stateless";
    assert forall i :: 0 <= i < |provider| ==> LowerChar(provider[i]) == provider[i];
    LowerFixed(provider);
  }

  lemma ToolKeeps(st: State, key: string, value: string)
    requires StateShape(st) && st.Reading? && st.at.InTool?
    ensures StateShape(StepTool(st, key, value))
  {
    var name := st.at.name;
    if ApplyKey(st.tools[name], key, value).Ok? { KeyKeepsShape(name, st.tools[name], key, value); }
  }

  lemma {:induction false} RunKeepsShape(st: State, items: seq<Item>)
    requires StateShape(st)
    ensures StateShape(Run(st, items))
    decreases |items|
  {
    if items != [] {
      StepKeepsShape(st, items[0]);
      RunKeepsShape(Step(st, items[0]), items[1..]);
    }
  }

  /** Every registry the parser accepts can be printed, and is acceptable. */
  lemma ParsedHasShape(text: string)
    requires ParseTOML(text).Ok?
    ensures RegistryShape(ParseTOML(text).value) && Acceptable(ParseTOML(text).value)
  {
    RunKeepsShape(Start, Items(SplitAfter(text)));
    FinishHasShape(Run(Start, Items(SplitAfter(text))));
  }

  lemma FinishHasShape(st: State)
    requires StateShape(st) && Finish(st).Ok?
    ensures RegistryShape(Finish(st).value) && Acceptable(Finish(st).value)
  {
    var reg := Finish(st).value;
    forall f | f in reg.defaults ensures ValidVersion(reg.defaults[f]) { assert FamilyOk(reg.tools, f, reg.defaults[f]); }
  }

  /** Parsing, printing and parsing again is parsing, as long as the printed lines fit. */
  lemma ReprintedIsTheSame(shown: Printable, text: string, families: seq<string>, names: seq<string>)
    requires ParseTOML(text).Ok?
    requires var reg := ParseTOML(text).value;
             Lists(families, reg.defaults) && Lists(names, reg.tools) && AllFit(RegistryLines(shown, reg, families, names))
    ensures ParseTOML(Concat(RegistryLines(shown, ParseTOML(text).value, families, names))) == ParseTOML(text)
  {
    ParsedHasShape(text);
    ParsePrinted(shown, ParseTOML(text).value, families, names);
  }

  /** A key of no printed line is refused, and only such a key is unsupported. */
  lemma OnlyPrintedKeys(shown: Printable, u: Tool, t: Tool, key: string, value: string)
    ensures ApplyKey(t, key, value) == Err(UnsupportedKey) <==>
            forall i :: 0 <= i < |ToolKeys(shown, u)| ==> ToolKeys(shown, u)[i].key != key
  {
    KeysListed(shown, u, key);
  }

  predicate Named(lines: seq<Line>, key: string) {
    exists i :: 0 <= i < |lines| && lines[i].key == key
  }

  lemma NamedAppend(a: seq<Line>, b: seq<Line>, key: string)
    ensures Named(a + b, key) <==> Named(a, key) || Named(b, key)
  {
    if Named(a, key) {
      var i :| 0 <= i < |a| && a[i].key == key;
      assert (a + b)[i].key == key;
    }
    if Named(b, key) {
      var i :| 0 <= i < |b| && b[i].key == key;
      assert (a + b)[|a| + i].key == key;
    }
  }

  lemma KeysListed(shown: Printable, u: Tool, key: string)
    ensures Named(ToolKeys(shown, u), key) <==> key == "path_last" || IsQuotedKey(key) || IsArrayKey(key)
  {
    var a, b, c, d, e := LabelKeys(shown, u), ImageKeys(shown, u), PathKeys(shown, u), EnvKeys(shown, u), StateKeys(shown, u);
    NamedAppend(a, b, key);
    NamedAppend(a + b, c, key);
    NamedAppend(a + b + c, d, key);
    NamedAppend(a + b + c + d, e, key);
    LabelsListed(shown, u, key);
    ImageListed(shown, u, key);
    PathsListed(shown, u, key);
    EnvListed(shown, u, key);
    StateListed(shown, u, key);
  }

  lemma LabelsListed(shown: Printable, u: Tool, key: string)
    ensures Named(LabelKeys(shown, u), key) <==> key == "default_family" || key == "default_version" || key == "default_alias"
  {
    var ls := LabelKeys(shown, u);
    assert ls[0].key == "default_family" && ls[1].key == "default_version" && ls[2].key == "default_alias";
  }

  lemma ImageListed(shown: Printable, u: Tool, key: string)
    ensures Named(ImageKeys(shown, u), key) <==>
            key == "image" || key == "provider" || key == "role" || key == "command" || key == "args_prefix"
  {
    var ls := ImageKeys(shown, u);
    assert ls[0].key == "image" && ls[1].key == "provider" && ls[2].key == "role" && ls[3].key == "command"
           && ls[4].key == "args_prefix";
  }

  lemma PathsListed(shown: Printable, u: Tool, key: string)
    ensures Named(PathKeys(shown, u), key) <==>
            key == "path_next" || key == "path_equals" || key == "path_last" || key == "path_last_if_any"
  {
    var ls := PathKeys(shown, u);
    assert ls[0].key == "path_next" && ls[1].key == "path_equals" && ls[2].key == "path_last" && ls[3].key == "path_last_if_any";
  }

  lemma EnvListed(shown: Printable, u: Tool, key: string)
    ensures Named(EnvKeys(shown, u), key) <==>
            key == "env_prefixes" || key == "env_names" || key == "env_set" || key == "project_markers"
            || key == "project_root_mode"
  {
    var ls := EnvKeys(shown, u);
    assert ls[0].key == "env_prefixes" && ls[1].key == "env_names" && ls[2].key == "env_set"
           && ls[3].key == "project_markers" && ls[4].key == "project_root_mode";
  }

  lemma StateListed(shown: Printable, u: Tool, key: string)
    ensures Named(StateKeys(shown, u), key) <==>
            key == "state_group" || key == "project_volumes" || key == "shared_volumes" || key == "host_mounts"
            || key == "cwd_mode"
  {
    var ls := StateKeys(shown, u);
    assert ls[0].key == "state_group" && ls[1].key == "project_volumes" && ls[2].key == "shared_volumes"
           && ls[3].key == "host_mounts" && ls[4].key == "cwd_mode";
  }
}
