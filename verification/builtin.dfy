/**
 * internal/registry/registry.go: the sections of the built-in registry text
 * (`sectionsFromTOML`), and what each of them means when it is appended to another registry.
 */
module Builtin {
  import opened Wrappers
  import opened Text
  import opened Toml
  import opened Registry

  // ---------------------------------------------------------------- cutting into sections

  /** The section a header line opens, "" when it is not one of the wanted kind. */
  function SectionName(raw: string, prefix: string): Option<string> {
    match ParseSectionHeader(raw)
    case Section(section) => Some(if prefix <= section then section[|prefix|..] else "")
    case _ => None
  }

  datatype Collected = Collected(sections: map<string, seq<string>>, current: string, body: seq<string>)

  function Flushed(c: Collected): map<string, seq<string>> {
    if c.current != "" then c.sections[c.current := c.body] else c.sections
  }

  function CollectLine(c: Collected, raw: string, prefix: string): Collected {
    match SectionName(raw, prefix)
    case Some(name) => Collected(Flushed(c), name, if name != "" then [raw] else [])
    case None => c.(body := if c.current != "" then c.body + [raw] else c.body)
  }

  function Collect(lines: seq<string>, prefix: string): Collected {
    if lines == [] then Collected(map[], "", [])
    else CollectLine(Collect(lines[..|lines| - 1], prefix), lines[|lines| - 1], prefix)
  }

  /** The lines of every section, header first, without their newlines. */
  function Sections(src: string, prefix: string): map<string, seq<string>> {
    Flushed(Collect(SplitOn(src, '\n'), prefix))
  }

  /** A section as it is appended: a blank line, then its lines. */
  function SectionLines(body: seq<string>, newline: string): seq<string> {
    [newline] + seq(|body|, i requires 0 <= i < |body| => body[i] + newline)
  }

  function Joined(body: seq<string>): string {
    if body == [] then "" else Joined(body[..|body| - 1]) + (body[|body| - 1] + "\n")
  }

  function SectionText(body: seq<string>): string {
    "\n" + Joined(body)
  }

  function Texts(sections: map<string, seq<string>>): map<string, string> {
    map n | n in sections :: SectionText(sections[n])
  }

  predicate NoMalformedHeader(lines: seq<string>) {
    forall i :: 0 <= i < |lines| ==> ParseSectionHeader(lines[i]) != Malformed
  }

  lemma CollectLineSections(c: Collected, line: string, prefix: string)
    requires !ParseSectionHeader(line).Malformed?
    ensures CollectLine(c, line, prefix).sections ==
            if ParseSectionHeader(line).Section? then Flushed(c) else c.sections
  {
  }

  predicate Matches(c: Collected, sections: map<string, string>, current: string, b: string) {
    sections == Texts(c.sections) && current == c.current && b == Joined(c.body) && (current == "" ==> c.body == [])
  }

  /** The `flush` closure. */
  method Flush(sections: map<string, string>, current: string, b: string, ghost c: Collected)
    returns (next: map<string, string>)
    requires Matches(c, sections, current, b)
    ensures next == Texts(Flushed(c))
  {
    next := sections;
    if current != "" {
      next := next[current := "\n" + b];
      TextsStep(c.sections, current, c.body);
    }
  }

  /** What the loop body does to the section being cut. */
  method TakeLine(current0: string, b0: string, line: string, section: Header, prefix: string, ghost c: Collected)
    returns (current: string, b: string)
    requires section == ParseSectionHeader(line) && !section.Malformed?
    requires current0 == c.current && b0 == Joined(c.body) && (current0 == "" ==> c.body == [])
    ensures var next := CollectLine(c, line, prefix);
            current == next.current && b == Joined(next.body) && (current == "" ==> next.body == [])
  {
    current, b := current0, b0;
    ghost var body := c.body;
    if section.Section? {
      current, b, body := "", "", [];
      if prefix <= section.name { current := section.name[|prefix|..]; }
      assert [] + [line] == [line];
    }
    if current != "" {
      b := b + line + "\n";
      JoinedStep(body, line);
    }
  }

  /** One line: the flush at a header, then the line itself. */
  method CutLine(sections0: map<string, string>, current0: string, b0: string, line: string, prefix: string, ghost c: Collected)
    returns (sections: map<string, string>, current: string, b: string)
    requires Matches(c, sections0, current0, b0) && !ParseSectionHeader(line).Malformed?
    ensures Matches(CollectLine(c, line, prefix), sections, current, b)
  {
    sections := sections0;
    var section := ParseSectionHeader(line);
    if section.Section? { sections := Flush(sections, current0, b0, c); }
    current, b := TakeLine(current0, b0, line, section, prefix, c);
    CollectLineSections(c, line, prefix);
  }

  lemma CollectStep(lines: seq<string>, prefix: string, i: nat)
    requires i < |lines|
    ensures Collect(lines[..i + 1], prefix) == CollectLine(Collect(lines[..i], prefix), lines[i], prefix)
  {
    assert lines[..i + 1][..i] == lines[..i];
  }

  method CutNext(sections0: map<string, string>, current0: string, b0: string, lines: seq<string>, i: nat, prefix: string)
    returns (sections: map<string, string>, current: string, b: string)
    requires i < |lines| && Matches(Collect(lines[..i], prefix), sections0, current0, b0)
    requires !ParseSectionHeader(lines[i]).Malformed?
    ensures Matches(Collect(lines[..i + 1], prefix), sections, current, b)
  {
    CollectStep(lines, prefix, i);
    sections, current, b := CutLine(sections0, current0, b0, lines[i], prefix, Collect(lines[..i], prefix));
  }

  method CutLines(lines: seq<string>, prefix: string) returns (r: Option<map<string, string>>)
    ensures r.Some? <==> NoMalformedHeader(lines)
    ensures r.Some? ==> r.value == Texts(Flushed(Collect(lines, prefix)))
  {
    var sections: map<string, string>, current, b := map[], "", "";
    assert lines[..0] == [];
    for i := 0 to |lines|
      invariant forall j :: 0 <= j < i ==> ParseSectionHeader(lines[j]) != Malformed
      invariant Matches(Collect(lines[..i], prefix), sections, current, b)
    {
      if ParseSectionHeader(lines[i]) == Malformed { return None; }
      sections, current, b := CutNext(sections, current, b, lines, i, prefix);
    }
    assert lines[..|lines|] == lines;
    sections := Flush(sections, current, b, Collect(lines, prefix));
    return Some(sections);
  }

  /** sectionsFromTOML as the source runs it. */
  method SectionsFromTOML(src: string, prefix: string) returns (r: Option<map<string, string>>)
    ensures r.Some? <==> NoMalformedHeader(SplitOn(src, '\n'))
    ensures r.Some? ==> r.value == Texts(Sections(src, prefix))
  {
    r := CutLines(SplitOn(src, '\n'), prefix);
  }

  lemma TextsStep(sections: map<string, seq<string>>, name: string, body: seq<string>)
    ensures Texts(sections[name := body]) == Texts(sections)[name := SectionText(body)]
  {
  }

  lemma JoinedStep(body: seq<string>, line: string)
    ensures Joined(body + [line]) == Joined(body) + line + "\n"
  {
    assert (body + [line])[..|body|] == body;
  }

  // ---------------------------------------------------------------- what a section means

  /** The text the parser accepts, and whose headers spell names the way the parser reads them. */
  predicate IsBuiltin(src: string, reg: Registry) {
    && ParseTOML(src) == Ok(reg) && reg.schema == MAX_SCHEMA_VERSION
    && forall i :: 0 <= i < |SplitOn(src, '\n')| ==> CanonicalHeader(SplitOn(src, '\n')[i])
  }

  predicate CanonicalHeader(raw: string) {
    match ParseSectionHeader(raw)
    case Section(section) =>
      && (TOOLS <= section ==> Lower(Trim(section[|TOOLS|..])) == section[|TOOLS|..])
      && (DEFAULTS <= section ==> Lower(Trim(section[|DEFAULTS|..])) == section[|DEFAULTS|..])
    case _ => true
  }

  /** A header and the keys after it. */
  predicate IsSection(items: seq<Item>, head: Item) {
    items != [] && items[0] == head && forall i :: 1 <= i < |items| ==> items[i].Blank? || items[i].Assign?
  }

  /** Appended to any registry without the tool, the lines define exactly it. */
  ghost predicate YieldsTool(items: seq<Item>, name: string, t: Tool) {
    forall st: State :: st.Reading? && name !in st.tools ==>
      Run(st, items) == Reading(st.schema, st.tools[name := t], st.defaults, InTool(name))
  }

  ghost predicate YieldsFamily(items: seq<Item>, family: string, version: string) {
    forall st: State :: st.Reading? && family !in st.defaults ==>
      Run(st, items) == Reading(st.schema, st.tools, st.defaults[family := version], InDefault(family))
  }

  lemma ToolBegins(name: string)
    requires ValidToolName(name) && !ReservedToolName(name)
    ensures YieldsTool([ToolHeader(name)], name, FreshTool(name))
  {
    forall other: State | other.Reading? && name !in other.tools
      ensures Run(other, [ToolHeader(name)]) ==
              Reading(other.schema, other.tools[name := FreshTool(name)], other.defaults, InTool(name))
    {
      RunOne(other, ToolHeader(name));
    }
  }

  /** One more line of a section. */
  lemma YieldsMore(items: seq<Item>, name: string, t: Tool, item: Item, u: Tool)
    requires YieldsTool(items, name, t) && (item.Blank? || item.Assign?) && ItemTool(t, item) == Ok(u)
    ensures YieldsTool(items + [item], name, u)
  {
    forall other: State | other.Reading? && name !in other.tools
      ensures Run(other, items + [item]) == Reading(other.schema, other.tools[name := u], other.defaults, InTool(name))
    {
      RunAppend(other, items, [item]);
      var mid := Reading(other.schema, other.tools[name := t], other.defaults, InTool(name));
      assert Run(other, items) == mid;
      RunOne(mid, item);
      KeyStep(mid, name, item);
      assert other.tools[name := t][name := u] == other.tools[name := u];
    }
  }

  /** One more line of the section, read in one registry, means the same in every other. */
  lemma ToolGoesOn(items: seq<Item>, name: string, st: State, item: Item)
    requires st.Reading? && st.at == InTool(name) && name in st.tools && YieldsTool(items, name, st.tools[name])
    requires item.Blank? || item.Assign?
    requires Step(st, item).Reading?
    ensures Step(st, item).at == st.at && name in Step(st, item).tools
    ensures YieldsTool(items + [item], name, Step(st, item).tools[name])
    ensures Step(st, item) == st.(tools := st.tools[name := Step(st, item).tools[name]])
  {
    KeyStep(st, name, item);
    YieldsMore(items, name, st.tools[name], item, Step(st, item).tools[name]);
  }

  function ItemTool(t: Tool, item: Item): Result<Tool, Reason> {
    if item.Assign? then ApplyKey(t, item.key, item.value) else Ok(t)
  }

  /** What the keys of a section make of a tool. */
  function KeysTool(t: Tool, keys: seq<Item>): Result<Tool, Reason>
    decreases |keys|
  {
    if keys == [] then Ok(t)
    else
      match ItemTool(t, keys[0])
      case Err(reason) => Err(reason)
      case Ok(u) => KeysTool(u, keys[1..])
  }

  lemma {:induction false} RunKeys(st: State, name: string, keys: seq<Item>)
    requires st.Reading? && st.at == InTool(name) && name in st.tools
    requires forall i :: 0 <= i < |keys| ==> keys[i].Blank? || keys[i].Assign?
    ensures Run(st, keys) ==
            match KeysTool(st.tools[name], keys)
            case Err(reason) => Rejected(reason)
            case Ok(t) => st.(tools := st.tools[name := t])
    decreases |keys|
  {
    if keys == [] {
      assert st.tools[name := st.tools[name]] == st.tools;
    } else {
      KeyStep(st, name, keys[0]);
      var next := Step(st, keys[0]);
      if next.Rejected? {
        RunRejected(next, keys[1..]);
      } else {
        RunKeys(next, name, keys[1..]);
      }
    }
  }

  /** The tool a section yields is what its keys make of a fresh one, and conversely. */
  lemma YieldsKeys(items: seq<Item>, name: string, t: Tool)
    requires IsSection(items, ToolHeader(name)) && ValidToolName(name) && !ReservedToolName(name)
    ensures YieldsTool(items, name, t) <==> KeysTool(FreshTool(name), items[1..]) == Ok(t)
  {
    forall st: State | st.Reading? && name !in st.tools
      ensures Run(st, items) ==
              match KeysTool(FreshTool(name), items[1..])
              case Err(reason) => Rejected(reason)
              case Ok(u) => Reading(st.schema, st.tools[name := u], st.defaults, InTool(name))
    {
      var next := Step(st, items[0]);
      RunKeys(next, name, items[1..]);
      if KeysTool(FreshTool(name), items[1..]).Ok? {
        var u := KeysTool(FreshTool(name), items[1..]).value;
        assert st.tools[name := FreshTool(name)][name := u] == st.tools[name := u];
      }
    }
    if YieldsTool(items, name, t) {
      var end := Run(Start, items);
      assert end == Reading(1, Start.tools[name := t], Start.defaults, InTool(name));
    }
  }

  lemma KeyStep(st: State, name: string, item: Item)
    requires st.Reading? && st.at == InTool(name) && name in st.tools && (item.Blank? || item.Assign?)
    ensures Step(st, item) ==
            match ItemTool(st.tools[name], item)
            case Err(reason) => Rejected(reason)
            case Ok(t) => st.(tools := st.tools[name := t])
  {
    assert st.tools[name := st.tools[name]] == st.tools;
  }

  lemma FamilyBegins(family: string, st: State)
    requires st.Reading? && Step(st, FamilyHeader(family)).Reading?
    ensures YieldsFamily([FamilyHeader(family)], family, "")
  {
    forall other: State | other.Reading? && family !in other.defaults
      ensures Run(other, [FamilyHeader(family)]) ==
              Reading(other.schema, other.tools, other.defaults[family := ""], InDefault(family))
    {
      RunOne(other, FamilyHeader(family));
    }
  }

  function ItemVersion(v: string, item: Item): Result<string, Reason> {
    if !item.Assign? then Ok(v)
    else if item.key != "version" then Err(UnsupportedKey)
    else
      match ParseQuoted(item.value)
      case None => Err(InvalidValue)
      case Some(w) => if !ValidVersion(w) then Err(InvalidValue) else if v != "" then Err(DuplicateVersion) else Ok(w)
  }

  lemma VersionStep(st: State, family: string, item: Item)
    requires st.Reading? && st.at == InDefault(family) && family in st.defaults && (item.Blank? || item.Assign?)
    ensures Step(st, item) ==
            match ItemVersion(st.defaults[family], item)
            case Err(reason) => Rejected(reason)
            case Ok(v) => st.(defaults := st.defaults[family := v])
  {
    assert st.defaults[family := st.defaults[family]] == st.defaults;
  }

  lemma FamilyGoesOn(items: seq<Item>, family: string, st: State, item: Item)
    requires st.Reading? && st.at == InDefault(family) && family in st.defaults
    requires YieldsFamily(items, family, st.defaults[family])
    requires item.Blank? || item.Assign?
    requires Step(st, item).Reading?
    ensures Step(st, item).at == st.at && family in Step(st, item).defaults
    ensures YieldsFamily(items + [item], family, Step(st, item).defaults[family])
    ensures Step(st, item) == st.(defaults := st.defaults[family := Step(st, item).defaults[family]])
  {
    var v, w := st.defaults[family], Step(st, item).defaults[family];
    VersionStep(st, family, item);
    forall other: State | other.Reading? && family !in other.defaults
      ensures Run(other, items + [item]) == Reading(other.schema, other.tools, other.defaults[family := w], InDefault(family))
    {
      RunAppend(other, items, [item]);
      var mid := Reading(other.schema, other.tools, other.defaults[family := v], InDefault(family));
      assert Run(other, items) == mid;
      RunOne(mid, item);
      VersionStep(mid, family, item);
      assert other.defaults[family := v][family := w] == other.defaults[family := w];
    }
  }

  // ---------------------------------------------------------------- all sections

  lemma ToolHeaderView(section: string)
    requires !HeaderItem(section).OtherHeader?
    requires TOOLS <= section ==> Lower(Trim(section[|TOOLS|..])) == section[|TOOLS|..]
    ensures if TOOLS <= section && section[|TOOLS|..] != "" then HeaderItem(section) == ToolHeader(section[|TOOLS|..])
            else HeaderItem(section).FamilyHeader?
  {
  }

  lemma FamilyHeaderView(section: string)
    requires !HeaderItem(section).OtherHeader?
    requires DEFAULTS <= section ==> Lower(Trim(section[|DEFAULTS|..])) == section[|DEFAULTS|..]
    ensures if DEFAULTS <= section && section[|DEFAULTS|..] != "" then HeaderItem(section) == FamilyHeader(section[|DEFAULTS|..])
            else HeaderItem(section).ToolHeader?
  {
    assert TOOLS[0] == 't' && DEFAULTS[0] == 'd';
    if DEFAULTS <= section { assert section[0] == 'd'; }
  }

  /** The header an accepted line is, as the section cutter sees it. */
  lemma ToolView(p: State, raw: string)
    requires p.Reading? && Step(p, Read(raw)).Reading? && CanonicalHeader(raw)
    ensures match SectionName(raw, TOOLS)
            case Some(name) => if name != "" then Read(raw) == ToolHeader(name) else Read(raw).FamilyHeader?
            case None => Read(raw).Blank? || Read(raw).Assign?
  {
    ReadHeader(raw);
    if ParseSectionHeader(raw).Section? { ToolHeaderView(ParseSectionHeader(raw).name); }
  }

  lemma FamilyView(p: State, raw: string)
    requires p.Reading? && Step(p, Read(raw)).Reading? && CanonicalHeader(raw)
    ensures match SectionName(raw, DEFAULTS)
            case Some(name) => if name != "" then Read(raw) == FamilyHeader(name) else Read(raw).ToolHeader?
            case None => Read(raw).Blank? || Read(raw).Assign?
  {
    ReadHeader(raw);
    if ParseSectionHeader(raw).Section? { FamilyHeaderView(ParseSectionHeader(raw).name); }
  }

  /** A key changes only the section it stands in. */
  lemma LineElsewhere(st: State, item: Item)
    requires st.Reading? && Step(st, item).Reading? && (item.Blank? || item.Assign?)
    ensures Step(st, item).at == st.at
    ensures !st.at.InTool? ==> Step(st, item).tools == st.tools
    ensures !st.at.InDefault? ==> Step(st, item).defaults == st.defaults
  {
  }

  /** The sections cut so far define the tools read so far. */
  ghost predicate ToolsSoFar(c: Collected, st: State) {
    && st.Reading?
    && (if c.current == "" then !st.at.InTool? else
          && st.at == InTool(c.current) && c.current in st.tools && c.current !in c.sections
          && YieldsTool(Items(c.body), c.current, st.tools[c.current]))
    && (forall n :: n in st.tools <==> n in c.sections || (n != "" && n == c.current))
    && (forall n :: n in c.sections ==> n in st.tools && YieldsTool(Items(c.sections[n]), n, st.tools[n]))
  }

  lemma FlushTools(c: Collected, st: State)
    requires ToolsSoFar(c, st)
    ensures forall n :: n in st.tools <==> n in Flushed(c)
    ensures forall n :: n in Flushed(c) ==> n in st.tools && YieldsTool(Items(Flushed(c)[n]), n, st.tools[n])
  {
  }

  lemma ToolsHeader(c: Collected, st: State, raw: string, name: string)
    requires ToolsSoFar(c, st) && Step(st, Read(raw)).Reading? && Read(raw) == ToolHeader(name) && name != ""
    ensures ToolsSoFar(Collected(Flushed(c), name, [raw]), Step(st, Read(raw)))
  {
    FlushTools(c, st);
    ToolBegins(name);
    assert Items([raw]) == [ToolHeader(name)];
  }

  lemma ToolsOther(c: Collected, st: State, raw: string)
    requires ToolsSoFar(c, st) && Step(st, Read(raw)).Reading? && Read(raw).FamilyHeader?
    ensures ToolsSoFar(Collected(Flushed(c), "", []), Step(st, Read(raw)))
  {
    FlushTools(c, st);
  }

  lemma ToolsLine(c: Collected, st: State, raw: string)
    requires ToolsSoFar(c, st) && Step(st, Read(raw)).Reading? && (Read(raw).Blank? || Read(raw).Assign?)
    ensures ToolsSoFar(c.(body := if c.current != "" then c.body + [raw] else c.body), Step(st, Read(raw)))
  {
    if c.current == "" {
      LineElsewhere(st, Read(raw));
    } else {
      ToolGoesOn(Items(c.body), c.current, st, Read(raw));
      ItemsAppend(c.body, [raw]);
      assert Items([raw]) == [Read(raw)];
    }
  }

  lemma ToolsStep(c: Collected, st: State, raw: string)
    requires ToolsSoFar(c, st) && Step(st, Read(raw)).Reading? && CanonicalHeader(raw)
    ensures ToolsSoFar(CollectLine(c, raw, TOOLS), Step(st, Read(raw)))
  {
    ToolView(st, raw);
    match SectionName(raw, TOOLS) {
      case Some(name) => if name != "" { ToolsHeader(c, st, raw, name); } else { ToolsOther(c, st, raw); }
      case None => ToolsLine(c, st, raw);
    }
  }

  lemma {:induction false} CollectTools(lines: seq<string>)
    requires Run(Start, Items(lines)).Reading? && forall i :: 0 <= i < |lines| ==> CanonicalHeader(lines[i])
    ensures ToolsSoFar(Collect(lines, TOOLS), Run(Start, Items(lines)))
    decreases |lines|
  {
    if lines != [] {
      var k := |lines| - 1;
      assert Items(lines)[..k] == Items(lines[..k]) && Items(lines)[..k + 1] == Items(lines);
      RunPrefix(Start, Items(lines), k);
      CollectTools(lines[..k]);
      ToolsStep(Collect(lines[..k], TOOLS), Run(Start, Items(lines[..k])), lines[k]);
    }
  }

  ghost predicate FamiliesSoFar(c: Collected, st: State) {
    && st.Reading?
    && (if c.current == "" then !st.at.InDefault? else
          && st.at == InDefault(c.current) && c.current in st.defaults && c.current !in c.sections
          && YieldsFamily(Items(c.body), c.current, st.defaults[c.current]))
    && (forall n :: n in st.defaults <==> n in c.sections || (n != "" && n == c.current))
    && (forall n :: n in c.sections ==> n in st.defaults && YieldsFamily(Items(c.sections[n]), n, st.defaults[n]))
  }

  lemma FlushFamilies(c: Collected, st: State)
    requires FamiliesSoFar(c, st)
    ensures forall n :: n in st.defaults <==> n in Flushed(c)
    ensures forall n :: n in Flushed(c) ==> n in st.defaults && YieldsFamily(Items(Flushed(c)[n]), n, st.defaults[n])
  {
  }

  lemma FamiliesHeader(c: Collected, st: State, raw: string, name: string)
    requires FamiliesSoFar(c, st) && Step(st, Read(raw)).Reading? && Read(raw) == FamilyHeader(name) && name != ""
    ensures FamiliesSoFar(Collected(Flushed(c), name, [raw]), Step(st, Read(raw)))
  {
    FlushFamilies(c, st);
    FamilyBegins(name, st);
    assert Items([raw]) == [FamilyHeader(name)];
  }

  lemma FamiliesOther(c: Collected, st: State, raw: string)
    requires FamiliesSoFar(c, st) && Step(st, Read(raw)).Reading? && Read(raw).ToolHeader?
    ensures FamiliesSoFar(Collected(Flushed(c), "", []), Step(st, Read(raw)))
  {
    FlushFamilies(c, st);
  }

  lemma FamiliesLine(c: Collected, st: State, raw: string)
    requires FamiliesSoFar(c, st) && Step(st, Read(raw)).Reading? && (Read(raw).Blank? || Read(raw).Assign?)
    ensures FamiliesSoFar(c.(body := if c.current != "" then c.body + [raw] else c.body), Step(st, Read(raw)))
  {
    if c.current == "" {
      LineElsewhere(st, Read(raw));
    } else {
      FamilyGoesOn(Items(c.body), c.current, st, Read(raw));
      ItemsAppend(c.body, [raw]);
      assert Items([raw]) == [Read(raw)];
    }
  }

  lemma FamiliesStep(c: Collected, st: State, raw: string)
    requires FamiliesSoFar(c, st) && Step(st, Read(raw)).Reading? && CanonicalHeader(raw)
    ensures FamiliesSoFar(CollectLine(c, raw, DEFAULTS), Step(st, Read(raw)))
  {
    FamilyView(st, raw);
    match SectionName(raw, DEFAULTS) {
      case Some(name) => if name != "" { FamiliesHeader(c, st, raw, name); } else { FamiliesOther(c, st, raw); }
      case None => FamiliesLine(c, st, raw);
    }
  }

  lemma {:induction false} CollectFamilies(lines: seq<string>)
    requires Run(Start, Items(lines)).Reading? && forall i :: 0 <= i < |lines| ==> CanonicalHeader(lines[i])
    ensures FamiliesSoFar(Collect(lines, DEFAULTS), Run(Start, Items(lines)))
    decreases |lines|
  {
    if lines != [] {
      var k := |lines| - 1;
      assert Items(lines)[..k] == Items(lines[..k]) && Items(lines)[..k + 1] == Items(lines);
      RunPrefix(Start, Items(lines), k);
      CollectFamilies(lines[..k]);
      FamiliesStep(Collect(lines[..k], DEFAULTS), Run(Start, Items(lines[..k])), lines[k]);
    }
  }

  // ---------------------------------------------------------------- the shape of a section

  /** A header of the wanted name, then lines that are none, all from `lines`. */
  predicate Cut(body: seq<string>, name: string, prefix: string, lines: seq<string>) {
    && body != [] && SectionName(body[0], prefix) == Some(name)
    && (forall i :: 1 <= i < |body| ==> SectionName(body[i], prefix) == None)
    && forall i :: 0 <= i < |body| ==> body[i] in lines
  }

  predicate AllCut(c: Collected, prefix: string, lines: seq<string>) {
    && (c.current != "" ==> Cut(c.body, c.current, prefix, lines))
    && forall n :: n in c.sections ==> Cut(c.sections[n], n, prefix, lines)
  }

  lemma CutGrows(body: seq<string>, name: string, prefix: string, lines: seq<string>, raw: string)
    requires Cut(body, name, prefix, lines)
    ensures Cut(body, name, prefix, lines + [raw])
    ensures SectionName(raw, prefix) == None ==> Cut(body + [raw], name, prefix, lines + [raw])
  {
    var more := body + [raw];
    assert forall i :: 0 <= i < |body| ==> more[i] == body[i];
    assert (lines + [raw])[|lines|] == raw;
  }

  lemma {:induction false} CollectCuts(lines: seq<string>, prefix: string)
    ensures AllCut(Collect(lines, prefix), prefix, lines)
    decreases |lines|
  {
    if lines != [] {
      var k := |lines| - 1;
      var front, raw := lines[..k], lines[k];
      assert lines == front + [raw];
      CollectCuts(front, prefix);
      var c := Collect(front, prefix);
      forall n | n in c.sections ensures Cut(c.sections[n], n, prefix, lines) {
        CutGrows(c.sections[n], n, prefix, front, raw);
      }
      if c.current != "" { CutGrows(c.body, c.current, prefix, front, raw); }
    }
  }

  /** A tool section of the built-in text is a header and keys. */
  lemma ToolSectionShape(src: string, reg: Registry, n: string)
    requires IsBuiltin(src, reg) && n in Sections(src, TOOLS) && n != ""
    ensures Sections(src, TOOLS)[n] != [] && IsSection(Items(Sections(src, TOOLS)[n]), ToolHeader(n))
  {
    var lines, body := SplitOn(src, '\n'), Sections(src, TOOLS)[n];
    BuiltinRun(src, reg);
    CollectCuts(lines, TOOLS);
    assert Cut(body, n, TOOLS, lines);
    forall i | 0 <= i < |body|
      ensures if i == 0 then Read(body[i]) == ToolHeader(n) else Read(body[i]).Blank? || Read(body[i]).Assign?
    {
      assert body[i] in lines;
      var j :| 0 <= j < |lines| && lines[j] == body[i];
      ReadingView(lines, j);
    }
  }

  /** The editor's view of any line of a text that was read to its end. */
  lemma ReadingView(lines: seq<string>, j: nat)
    requires j < |lines| && Run(Start, Items(lines)).Reading? && CanonicalHeader(lines[j])
    ensures match SectionName(lines[j], TOOLS)
            case Some(name) => if name != "" then Read(lines[j]) == ToolHeader(name) else Read(lines[j]).FamilyHeader?
            case None => Read(lines[j]).Blank? || Read(lines[j]).Assign?
  {
    RunPrefix(Start, Items(lines), j);
    ToolView(Run(Start, Items(lines)[..j]), lines[j]);
  }

  // ---------------------------------------------------------------- newlines do not matter

  predicate IsNewline(newline: string) {
    newline == "\n" || newline == "\r\n"
  }

  /** A line read with any terminator is the line. */
  lemma ReadTerminated(line: string, newline: string)
    requires IsNewline(newline) && Unterminated(line) && FitsScanner(line + newline) && FitsScanner(line)
    ensures Read(line + newline) == Read(line)
  {
    MeaningOfToken(line + newline);
    MeaningOfSuffix(line, newline);
    MeaningOfToken(line);
  }

  /** A line as SplitOn and as SplitAfter cut it. */
  predicate SameLine(line: string, raw: string) {
    line == WithoutNewline(raw) && Unterminated(line)
  }

  lemma CutBothWays(src: string, i: nat)
    requires i == IndexOf(src, '\n') < |src|
    ensures SplitOn(src, '\n') == [src[..i]] + SplitOn(src[i + 1..], '\n')
    ensures SplitAfter(src) == [src[..i + 1]] + SplitAfter(src[i + 1..])
    ensures SameLine(src[..i], src[..i + 1])
  {
    CutOn(src, '\n', i);
    CutAfter(src, '\n', i);
    SameWithNewline(src[..i]);
    assert src[..i + 1] == src[..i] + "\n";
  }

  lemma CutOn(src: string, c: char, i: nat)
    requires i == IndexOf(src, c) < |src|
    ensures SplitOn(src, c) == [src[..i]] + SplitOn(src[i + 1..], c)
  {
  }

  lemma CutAfter(src: string, c: char, i: nat)
    requires c == '\n' && i == IndexOf(src, c) < |src|
    ensures SplitAfter(src) == [src[..i + 1]] + SplitAfter(src[i + 1..])
  {
  }

  lemma SameWithNewline(line: string)
    requires '\n' !in line
    ensures SameLine(line, line + "\n")
  {
    assert WithoutNewline(line + "\n") == line;
  }

  lemma {:induction false} SplitBothWays(src: string)
    ensures |SplitOn(src, '\n')| == |SplitAfter(src)|
    ensures forall i :: 0 <= i < |SplitOn(src, '\n')| ==> SameLine(SplitOn(src, '\n')[i], SplitAfter(src)[i])
    decreases |src|
  {
    var i := IndexOf(src, '\n');
    if i < |src| {
      CutBothWays(src, i);
      SplitBothWays(src[i + 1..]);
    }
  }

  lemma WithoutNewlineTwice(raw: string)
    requires Unterminated(WithoutNewline(raw))
    ensures WithoutNewline(WithoutNewline(raw)) == WithoutNewline(raw)
    ensures Read(WithoutNewline(raw)) == Read(raw)
  {
    var line := WithoutNewline(raw);
    if line != "" { assert line[|line| - 1] != '\n'; }
  }

  lemma SplitItems(src: string)
    ensures Items(SplitOn(src, '\n')) == Items(SplitAfter(src))
  {
    SplitBothWays(src);
    forall i | 0 <= i < |SplitAfter(src)| ensures Read(SplitOn(src, '\n')[i]) == Read(SplitAfter(src)[i]) {
      WithoutNewlineTwice(SplitAfter(src)[i]);
    }
  }

  lemma BuiltinRun(src: string, reg: Registry)
    requires IsBuiltin(src, reg)
    ensures var end := Run(Start, Items(SplitOn(src, '\n')));
            end.Reading? && end.tools == reg.tools && end.defaults == reg.defaults
    ensures forall i :: 0 <= i < |SplitOn(src, '\n')| ==> CanonicalHeader(SplitOn(src, '\n')[i])
  {
    SplitItems(src);
  }

  /** The sections of the built-in text are those of its registry, and each means there what
      it means anywhere. */
  lemma SectionsOfBuiltin(src: string, reg: Registry)
    requires IsBuiltin(src, reg)
    ensures forall n :: n in reg.tools <==> n in Sections(src, TOOLS)
    ensures forall n :: n in reg.tools ==> YieldsTool(Items(Sections(src, TOOLS)[n]), n, reg.tools[n])
    ensures forall f :: f in reg.defaults <==> f in Sections(src, DEFAULTS)
    ensures forall f :: f in reg.defaults ==> YieldsFamily(Items(Sections(src, DEFAULTS)[f]), f, reg.defaults[f])
  {
    var lines := SplitOn(src, '\n');
    BuiltinRun(src, reg);
    CollectTools(lines);
    CollectFamilies(lines);
    FlushTools(Collect(lines, TOOLS), Run(Start, Items(lines)));
    FlushFamilies(Collect(lines, DEFAULTS), Run(Start, Items(lines)));
  }

  // ---------------------------------------------------------------- appending sections

  predicate AllUnterminated(lines: seq<string>) {
    forall i :: 0 <= i < |lines| ==> Unterminated(lines[i])
  }

  lemma {:induction false} BodiesUnterminated(lines: seq<string>, prefix: string)
    requires AllUnterminated(lines)
    ensures var c := Collect(lines, prefix);
            AllUnterminated(c.body) && forall n :: n in c.sections ==> AllUnterminated(c.sections[n])
    decreases |lines|
  {
    if lines != [] {
      var k := |lines| - 1;
      assert Unterminated(lines[k]);
      BodiesUnterminated(lines[..k], prefix);
    }
  }
}
