/**
 * internal/registry/file.go: adding the built-in profiles a registry lacks
 * (`AppendMissingDefaultToolsMode`), for registries that already have versioned profiles.
 */
module Upgrade {
  import opened Wrappers
  import opened Text
  import opened Toml
  import opened Sorting
  import opened Registry
  import opened Builtin
  import opened PrintedLines

  // ---------------------------------------------------------------- appending sections

  lemma {:induction false} Utf8Append(a: string, b: string)
    ensures Utf8Length(a + b) == Utf8Length(a) + Utf8Length(b)
  {
    if a == "" {
      assert a + b == b;
    } else {
      assert (a + b)[1..] == a[1..] + b;
      Utf8Append(a[1..], b);
    }
  }

  /** A longer terminator never makes a line fit. */
  lemma FitsWithout(line: string, newline: string)
    requires IsNewline(newline) && Unterminated(line) && FitsScanner(line + newline)
    ensures FitsScanner(line) && Read(line + newline) == Read(line)
  {
    var whole := line + newline;
    var cr := newline[..|newline| - 1];
    assert WithoutNewline(whole) == line + cr;
    Utf8Append(line, cr);
    if line != "" { assert line[|line| - 1] != '\n'; }
    assert WithoutNewline(line) == line;
    ReadTerminated(line, newline);
  }

  lemma ReadNewline(newline: string)
    requires IsNewline(newline) && FitsScanner(newline)
    ensures Read(newline) == Blank
  {
    assert "" + newline == newline;
    MeaningOfSuffix("", newline);
    assert Meaning("") == "";
    ReadBlank(newline);
  }

  lemma ReadComment(line: string)
    requires line != "" && line[0] == '#' && FitsScanner(line)
    ensures Read(line) == Blank
  {
    assert StripComment(line) == "";
    ReadBlank(line);
  }

  function Terminate(body: seq<string>, newline: string): (lines: seq<string>)
    ensures |lines| == |body|
  {
    seq(|body|, i requires 0 <= i < |body| => body[i] + newline)
  }

  lemma ReadBody(body: seq<string>, newline: string)
    requires IsNewline(newline) && AllUnterminated(body) && AllFit(Terminate(body, newline))
    ensures Items(Terminate(body, newline)) == Items(body)
  {
    forall i | 0 <= i < |body| ensures Items(Terminate(body, newline))[i] == Items(body)[i] {
      assert FitsScanner(Terminate(body, newline)[i]);
      FitsWithout(body[i], newline);
    }
  }

  lemma ReadSection(body: seq<string>, newline: string)
    requires IsNewline(newline) && AllUnterminated(body) && AllFit(SectionLines(body, newline))
    ensures Items(SectionLines(body, newline)) == [Blank] + Items(body)
  {
    AllFitAppend([newline], Terminate(body, newline));
    assert SectionLines(body, newline) == [newline] + Terminate(body, newline);
    assert FitsScanner([newline][0]);
    ReadNewline(newline);
    ReadBody(body, newline);
    ItemsAppend([newline], Terminate(body, newline));
    assert Items([newline]) == [Blank];
  }

  lemma ReadingFits(st: State, lines: seq<string>)
    requires Run(st, Items(lines)).Reading?
    ensures AllFit(lines)
  {
    forall i | 0 <= i < |lines| ensures FitsScanner(lines[i]) {
      RunPrefix(st, Items(lines), i);
    }
  }

  lemma TooLongRejects(st: State, lines: seq<string>)
    requires !AllFit(lines)
    ensures Run(st, Items(lines)).Rejected?
  {
    if Run(st, Items(lines)).Reading? { ReadingFits(st, lines); }
  }

  lemma RunLines(st: State, a: seq<string>, b: seq<string>)
    ensures Run(st, Items(a + b)) == Run(Run(st, Items(a)), Items(b))
  {
    ItemsAppend(a, b);
    RunAppend(st, Items(a), Items(b));
  }

  /** The sections of the given names, one after the other. */
  function AppendSections(sections: map<string, seq<string>>, names: seq<string>, newline: string): seq<string> {
    if names == [] then []
    else
      AppendSections(sections, names[..|names| - 1], newline)
      + SectionLines(BodyOf(sections, names[|names| - 1]), newline)
  }

  function BodyOf(sections: map<string, seq<string>>, n: string): seq<string> {
    if n in sections then sections[n] else []
  }

  function Pick<V>(all: map<string, V>, names: seq<string>): map<string, V> {
    map n | n in names && n in all :: all[n]
  }

  lemma PickStep<V>(all: map<string, V>, names: seq<string>)
    requires names != [] && names[|names| - 1] in all
    ensures Pick(all, names) == Pick(all, names[..|names| - 1])[names[|names| - 1] := all[names[|names| - 1]]]
  {
    assert names == names[..|names| - 1] + [names[|names| - 1]];
  }

  lemma RunSection(st: State, body: seq<string>, newline: string)
    requires IsNewline(newline) && AllUnterminated(body) && AllFit(SectionLines(body, newline))
    ensures Run(st, Items(SectionLines(body, newline))) == Run(st, Items(body))
  {
    ReadSection(body, newline);
    RunAppend(st, [Blank], Items(body));
    RunOne(st, Blank);
  }

  /** Names that one registry has and another lacks, each once. */
  predicate Lacks<V, W>(names: seq<string>, all: map<string, V>, have: map<string, W>) {
    && (forall i :: 0 <= i < |names| ==> names[i] in all && names[i] !in have)
    && (forall i, j :: 0 <= i < j < |names| ==> names[i] != names[j])
  }

  lemma NotYet<V>(have: map<string, V>, all: map<string, V>, names: seq<string>)
    requires names != [] && Lacks(names, all, have)
    ensures var init, last := names[..|names| - 1], names[|names| - 1];
            last !in have + Pick(all, init) && (have + Pick(all, init))[last := all[last]] == have + Pick(all, names)
  {
    var init, last := names[..|names| - 1], names[|names| - 1];
    assert last !in init;
    PickStep(all, names);
  }

  /** The section of `n` can be appended, and says what `all` says of it. */
  ghost predicate ToolsSection(sections: map<string, seq<string>>, all: map<string, Tool>, n: string) {
    n in sections && n in all && AllUnterminated(sections[n]) && YieldsTool(Items(sections[n]), n, all[n])
  }

  lemma RunToolsStep(mid: State, sections: map<string, seq<string>>, all: map<string, Tool>, n: string, newline: string)
    requires mid.Reading? && IsNewline(newline) && ToolsSection(sections, all, n) && n !in mid.tools
    requires AllFit(SectionLines(sections[n], newline))
    ensures Run(mid, Items(SectionLines(sections[n], newline))) ==
            mid.(tools := mid.tools[n := all[n]], at := InTool(n))
  {
    RunSection(mid, sections[n], newline);
  }

  lemma {:induction false} RunTools(st: State, sections: map<string, seq<string>>, all: map<string, Tool>,
                                    names: seq<string>, newline: string)
    requires st.Reading? && IsNewline(newline) && Lacks(names, all, st.tools)
    requires forall i :: 0 <= i < |names| ==> names[i] in sections && ToolsSection(sections, all, names[i])
    requires AllFit(AppendSections(sections, names, newline))
    ensures var end := Run(st, Items(AppendSections(sections, names, newline)));
            end.Reading? && end.schema == st.schema && end.defaults == st.defaults && end.tools == st.tools + Pick(all, names)
    decreases |names|
  {
    if names == [] {
      assert st.tools + Pick(all, names) == st.tools;
    } else {
      var init, last := names[..|names| - 1], names[|names| - 1];
      var a, b := AppendSections(sections, init, newline), SectionLines(sections[last], newline);
      AllFitAppend(a, b);
      RunTools(st, sections, all, init, newline);
      RunLines(st, a, b);
      var mid := Run(st, Items(a));
      NotYet(st.tools, all, names);
      RunToolsStep(mid, sections, all, last, newline);
    }
  }

  /** The section of `n` can be appended, and says what `all` says of it. */
  ghost predicate FamiliesSection(sections: map<string, seq<string>>, all: map<string, string>, n: string) {
    n in sections && n in all && AllUnterminated(sections[n]) && YieldsFamily(Items(sections[n]), n, all[n])
  }

  lemma RunFamiliesStep(mid: State, sections: map<string, seq<string>>, all: map<string, string>, n: string, newline: string)
    requires mid.Reading? && IsNewline(newline) && FamiliesSection(sections, all, n) && n !in mid.defaults
    requires AllFit(SectionLines(sections[n], newline))
    ensures Run(mid, Items(SectionLines(sections[n], newline))) ==
            mid.(defaults := mid.defaults[n := all[n]], at := InDefault(n))
  {
    RunSection(mid, sections[n], newline);
  }

  lemma {:induction false} RunFamilies(st: State, sections: map<string, seq<string>>, all: map<string, string>,
                                    names: seq<string>, newline: string)
    requires st.Reading? && IsNewline(newline) && Lacks(names, all, st.defaults)
    requires forall i :: 0 <= i < |names| ==> names[i] in sections && FamiliesSection(sections, all, names[i])
    requires AllFit(AppendSections(sections, names, newline))
    ensures var end := Run(st, Items(AppendSections(sections, names, newline)));
            end.Reading? && end.schema == st.schema && end.tools == st.tools && end.defaults == st.defaults + Pick(all, names)
    decreases |names|
  {
    if names == [] {
      assert st.defaults + Pick(all, names) == st.defaults;
    } else {
      var init, last := names[..|names| - 1], names[|names| - 1];
      var a, b := AppendSections(sections, init, newline), SectionLines(sections[last], newline);
      AllFitAppend(a, b);
      RunFamilies(st, sections, all, init, newline);
      RunLines(st, a, b);
      var mid := Run(st, Items(a));
      NotYet(st.defaults, all, names);
      RunFamiliesStep(mid, sections, all, last, newline);
    }
  }

  // ---------------------------------------------------------------- what is appended

  const ADDED := "# Added by container-bin "

  /** A blank line, the comment, and the sections of the missing families and tools. */
  function Appendix(src: string, families: seq<string>, names: seq<string>, version: string, newline: string): seq<string>
  {
    [newline, ADDED + version + newline]
    + (AppendSections(Sections(src, DEFAULTS), families, newline) + AppendSections(Sections(src, TOOLS), names, newline))
  }

  lemma BuiltinBodies(src: string, prefix: string)
    ensures forall n :: n in Sections(src, prefix) ==> AllUnterminated(Sections(src, prefix)[n])
  {
    SplitBothWays(src);
    BodiesUnterminated(SplitOn(src, '\n'), prefix);
  }

  lemma RunPreamble(st: State, version: string, newline: string)
    requires st.Reading? && IsNewline(newline) && AllFit([newline, ADDED + version + newline])
    ensures Run(st, Items([newline, ADDED + version + newline])) == st
  {
    var lines := [newline, ADDED + version + newline];
    assert FitsScanner(lines[0]) && FitsScanner(lines[1]);
    ReadNewline(newline);
    ReadComment(ADDED + version + newline);
    assert Items(lines) == [Blank] + [Blank];
    RunAppend(st, [Blank], [Blank]);
    RunOne(st, Blank);
  }

  /** Reading the appendix adds exactly the missing families and tools. */
  lemma RunAppendix(src: string, b: Registry, st: State, families: seq<string>, names: seq<string>,
                    version: string, newline: string)
    requires IsBuiltin(src, b) && st.Reading? && IsNewline(newline)
    requires Lacks(families, b.defaults, st.defaults) && Lacks(names, b.tools, st.tools)
    ensures var lines := Appendix(src, families, names, version, newline);
            var end := Run(st, Items(lines));
            if AllFit(lines) then
              end.Reading? && end.schema == st.schema && end.tools == st.tools + Pick(b.tools, names)
              && end.defaults == st.defaults + Pick(b.defaults, families)
            else end.Rejected?
  {
    var lines := Appendix(src, families, names, version, newline);
    if AllFit(lines) {
      RunAppendixParts(src, b, st, families, names, version, newline);
    } else {
      TooLongRejects(st, lines);
    }
  }

  lemma RunAppendixParts(src: string, b: Registry, st: State, families: seq<string>, names: seq<string>,
                         version: string, newline: string)
    requires IsBuiltin(src, b) && st.Reading? && IsNewline(newline)
    requires Lacks(families, b.defaults, st.defaults) && Lacks(names, b.tools, st.tools)
    requires AllFit(Appendix(src, families, names, version, newline))
    ensures var end := Run(st, Items(Appendix(src, families, names, version, newline)));
            end.Reading? && end.schema == st.schema && end.tools == st.tools + Pick(b.tools, names)
            && end.defaults == st.defaults + Pick(b.defaults, families)
  {
    var preamble := [newline, ADDED + version + newline];
    var fs := AppendSections(Sections(src, DEFAULTS), families, newline);
    var ts := AppendSections(Sections(src, TOOLS), names, newline);
    AllFitAppend(preamble, fs + ts);
    AllFitAppend(fs, ts);
    RunLines(st, preamble, fs + ts);
    RunLines(st, fs, ts);
    RunPreamble(st, version, newline);
    BuiltinSections(src, b);
    RunFamilies(st, Sections(src, DEFAULTS), b.defaults, families, newline);
    RunTools(Run(st, Items(fs)), Sections(src, TOOLS), b.tools, names, newline);
  }

  /** Every section of the built-in text can be appended. */
  lemma BuiltinSections(src: string, b: Registry)
    requires IsBuiltin(src, b)
    ensures forall n :: n in b.tools ==> ToolsSection(Sections(src, TOOLS), b.tools, n)
    ensures forall f :: f in b.defaults ==> FamiliesSection(Sections(src, DEFAULTS), b.defaults, f)
  {
    SectionsOfBuiltin(src, b);
    BuiltinBodies(src, DEFAULTS);
    BuiltinBodies(src, TOOLS);
  }

  // ---------------------------------------------------------------- the text it is appended to

  /** The lines of a text, the last one terminated. */
  function Closed(lines: seq<string>, newline: string): seq<string>
    requires lines != []
  {
    var last := lines[|lines| - 1];
    if last == "" then lines[..|lines| - 1]
    else if last[|last| - 1] == '\n' then lines
    else lines[..|lines| - 1] + [last + newline]
  }

  lemma TerminateLast(init: seq<string>, last: string, newline: string)
    requires IsNewline(newline) && Unterminated(last) && FitsScanner(last + newline)
    ensures Items(init + [last + newline]) == Items(init + [last])
  {
    FitsWithout(last, newline);
    ItemsAppend(init, [last + newline]);
    ItemsAppend(init, [last]);
    assert Items([last + newline]) == Items([last]);
  }

  /** Terminating the last line changes nothing it says. */
  lemma ClosedRuns(st: State, lines: seq<string>, newline: string)
    requires lines != [] && IsNewline(newline) && Lineated(lines)
    ensures forall i :: 0 <= i < |Closed(lines, newline)| ==> Terminated(Closed(lines, newline)[i])
    ensures AllFit(Closed(lines, newline)) ==> Run(st, Items(Closed(lines, newline))) == Run(st, Items(lines))
  {
    var init, last := lines[..|lines| - 1], lines[|lines| - 1];
    assert lines == init + [last];
    if last == "" {
      RunTrailingBlank(st, init);
    } else if last[|last| - 1] != '\n' {
      assert Unterminated(last);
      LineTerminated(last, newline);
      if AllFit(Closed(lines, newline)) {
        AllFitAppend(init, [last + newline]);
        assert FitsScanner([last + newline][0]);
        TerminateLast(init, last, newline);
      }
    }
  }

  lemma ConcatEnd(init: seq<string>, last: string)
    ensures Concat(init + [last]) == Concat(init) + last
    ensures last != "" ==> Concat(init + [last]) != "" && Concat(init + [last])[|Concat(init + [last])| - 1] == last[|last| - 1]
  {
    ConcatAppend(init, [last]);
    ConcatOne(last);
  }

  /** A text followed by a newline when it does not end in one. */
  function EndLine(text: string, newline: string): string {
    if text == "" || text[|text| - 1] == '\n' then text else text + newline
  }

  lemma ConcatClosed(lines: seq<string>, newline: string)
    requires lines != [] && Lineated(lines)
    ensures Concat(Closed(lines, newline)) == EndLine(Concat(lines), newline)
  {
    var init, last := lines[..|lines| - 1], lines[|lines| - 1];
    assert lines == init + [last];
    ConcatEnd(init, last);
    if last == "" {
      ConcatEndsLine(init);
    } else if last[|last| - 1] != '\n' {
      ConcatEnd(init, last + newline);
      assert Concat(init) + (last + newline) == (Concat(init) + last) + newline;
    }
  }

  lemma ConcatOne(line: string)
    ensures Concat([line]) == line
  {
    assert [line][1..] == [];
  }

  lemma ConcatEndsLine(lines: seq<string>)
    requires forall i :: 0 <= i < |lines| ==> Terminated(lines[i])
    ensures EndLine(Concat(lines), "\n") == Concat(lines)
    ensures Concat(lines) == "" || Concat(lines)[|Concat(lines)| - 1] == '\n'
  {
    if lines != [] {
      var init, last := lines[..|lines| - 1], lines[|lines| - 1];
      assert lines == init + [last];
      ConcatEnd(init, last);
    }
  }

  // ---------------------------------------------------------------- the merged registry

  /** Every built-in tool and family the registry does not already have. */
  function Merged(reg: Registry, b: Registry): Registry {
    Registry(MAX_SCHEMA_VERSION, b.tools + reg.tools, b.defaults + reg.defaults)
  }

  /** NeedsDefaultUpgrade */
  predicate NeedsDefaultUpgrade(b: Registry, reg: Registry) {
    || reg.schema < MAX_SCHEMA_VERSION
    || (exists n :: n in b.tools && n !in reg.tools)
    || (exists f :: f in b.defaults && f !in reg.defaults)
  }

  /** A merged registry lacks nothing, so a second upgrade has nothing to do. */
  lemma MergedIsComplete(b: Registry, reg: Registry)
    ensures !NeedsDefaultUpgrade(b, Merged(reg, b))
  {
  }

  /** The names of one map that another lacks, in ascending order. */
  ghost function Missing<V>(all: map<string, V>, have: map<string, V>): (names: seq<string>)
    ensures Enumerates(names, set n | n in all && n !in have)
  {
    SortedSeq(set n | n in all && n !in have)
  }

  lemma MissingLacks<V>(all: map<string, V>, have: map<string, V>)
    ensures Lacks(Missing(all, have), all, have)
    ensures have + Pick(all, Missing(all, have)) == all + have
  {
    SortedIsDistinct(Missing(all, have), set n | n in all && n !in have);
  }

  lemma BuiltinToolsOk(src: string, b: Registry, n: string)
    requires IsBuiltin(src, b) && n in b.tools
    ensures ToolOk(b.tools[n])
  {
  }

  /** The checks after the last line, when the tools are those of two accepted registries. */
  lemma FinishMerged(src: string, b: Registry, end: State, reg: Registry)
    requires IsBuiltin(src, b) && end.Reading? && end.schema == MAX_SCHEMA_VERSION
    requires end.tools == b.tools + reg.tools && end.defaults == b.defaults + reg.defaults
    requires reg.tools != map[] && forall n :: n in reg.tools ==> ToolOk(reg.tools[n])
    ensures Finish(end) == if DefaultsOk(Merged(reg, b)) then Ok(Merged(reg, b)) else Err(InvalidDefaults)
  {
    forall n | n in b.tools ensures ToolOk(b.tools[n]) { BuiltinToolsOk(src, b, n); }
    BothToolsOk(b.tools, reg.tools);
    FinishOk(end);
  }

  lemma BothToolsOk(tools: map<string, Tool>, more: map<string, Tool>)
    requires more != map[]
    requires (forall n :: n in tools ==> ToolOk(tools[n])) && forall n :: n in more ==> ToolOk(more[n])
    ensures tools + more != map[] && forall n :: n in tools + more ==> ToolOk((tools + more)[n])
  {
    var n :| n in more;
    assert n in tools + more;
  }

  lemma FinishOk(end: State)
    requires end.Reading? && end.tools != map[] && forall n :: n in end.tools ==> ToolOk(end.tools[n])
    ensures var reg := Registry(end.schema, end.tools, end.defaults);
            Finish(end) == if DefaultsOk(reg) then Ok(reg) else Err(InvalidDefaults)
  {
  }

  lemma AcceptedTools(text: string, reg: Registry)
    requires ParseTOML(text) == Ok(reg)
    ensures reg.tools != map[] && forall n :: n in reg.tools ==> ToolOk(reg.tools[n])
    ensures reg.schema < 2 ==> reg.defaults == map[]
    ensures var end := Run(Start, Items(SplitAfter(text)));
            end.Reading? && end.schema == reg.schema && end.tools == reg.tools && end.defaults == reg.defaults
  {
  }

  // ---------------------------------------------------------------- schema version 2

  /** The lines AppendMissingDefaultTools writes. */
  function AppendedLines(src: string, data: string, families: seq<string>, names: seq<string>, version: string): seq<string>
  {
    Closed(SplitAfter(data), "\n") + Appendix(src, families, names, version, "\n")
  }

  lemma {:induction false} SectionsTerminated(sections: map<string, seq<string>>, names: seq<string>, newline: string)
    requires forall i :: 0 <= i < |names| ==> AllUnterminated(BodyOf(sections, names[i]))
    requires IsNewline(newline)
    ensures AllTerminated(AppendSections(sections, names, newline))
    decreases |names|
  {
    if names != [] {
      SectionsTerminated(sections, names[..|names| - 1], newline);
      SectionTerminated(BodyOf(sections, names[|names| - 1]), newline);
    }
  }

  lemma SectionTerminated(body: seq<string>, newline: string)
    requires AllUnterminated(body) && IsNewline(newline)
    ensures AllTerminated(SectionLines(body, newline))
  {
    var lines := SectionLines(body, newline);
    forall i | 0 <= i < |lines| ensures Terminated(lines[i]) {
      if i > 0 { LineTerminated(body[i - 1], newline); } else { LineTerminated("", newline); }
    }
  }

  lemma LineTerminated(line: string, newline: string)
    requires Unterminated(line) && IsNewline(newline)
    ensures Terminated(line + newline)
  {
  }

  lemma AppendixTerminated(src: string, families: seq<string>, names: seq<string>, version: string, newline: string)
    requires Unterminated(version) && IsNewline(newline)
    ensures AllTerminated(Appendix(src, families, names, version, newline))
  {
    BuiltinBodies(src, DEFAULTS);
    SectionsTerminated(Sections(src, DEFAULTS), families, newline);
    BuiltinBodies(src, TOOLS);
    SectionsTerminated(Sections(src, TOOLS), names, newline);
    PreambleTerminated(version, newline);
  }

  lemma PreambleTerminated(version: string, newline: string)
    requires Unterminated(version) && IsNewline(newline)
    ensures AllTerminated([newline, ADDED + version + newline])
  {
    LineTerminated("", newline);
    assert "" + newline == newline;
    assert '\n' !in ADDED;
    assert Unterminated(ADDED + version);
    LineTerminated(ADDED + version, newline);
  }

  lemma FitsWithNewline(line: string)
    requires Unterminated(line) && FitsScanner(line)
    ensures FitsScanner(line + "\n")
  {
    if line != "" { assert line[|line| - 1] != '\n'; }
    assert WithoutNewline(line + "\n") == line;
  }

  lemma DataFits(lines: seq<string>)
    requires lines != [] && AllFit(lines) && Unterminated(lines[|lines| - 1])
    ensures AllFit(Closed(lines, "\n"))
  {
    FitsWithNewline(lines[|lines| - 1]);
  }

  /** The parser after the old text and the appendix. */
  lemma AppendedRun(src: string, b: Registry, data: string, families: seq<string>, names: seq<string>, version: string)
    requires IsBuiltin(src, b) && ParseTOML(data).Ok?
    requires var reg := ParseTOML(data).value;
             Lacks(families, b.defaults, reg.defaults) && Lacks(names, b.tools, reg.tools)
    ensures var reg := ParseTOML(data).value;
            var end := Run(Start, Items(AppendedLines(src, data, families, names, version)));
            if AllFit(Appendix(src, families, names, version, "\n")) then
              end.Reading? && end.schema == reg.schema && end.tools == reg.tools + Pick(b.tools, names)
              && end.defaults == reg.defaults + Pick(b.defaults, families)
            else end.Rejected?
  {
    var lines := SplitAfter(data);
    AcceptedTools(data, ParseTOML(data).value);
    SplitAfterShape(data);
    ReadingFits(Start, lines);
    DataFits(lines);
    ClosedRuns(Start, lines, "\n");
    var base := Closed(lines, "\n");
    RunAppendix(src, b, Run(Start, Items(base)), families, names, version, "\n");
    RunLines(Start, base, Appendix(src, families, names, version, "\n"));
  }

  lemma AppendedTerminated(src: string, data: string, families: seq<string>, names: seq<string>, version: string)
    requires Unterminated(version)
    ensures Lineated(AppendedLines(src, data, families, names, version))
  {
    SplitAfterShape(data);
    ClosedRuns(Start, SplitAfter(data), "\n");
    AppendixTerminated(src, families, names, version, "\n");
  }

  /** The lines after a version 2 upgrade: the old text, closed, and the appendix of what it lacks. */
  ghost function UpgradedLines(src: string, b: Registry, data: string, reg: Registry, version: string): seq<string> {
    AppendedLines(src, data, Missing(b.defaults, reg.defaults), Missing(b.tools, reg.tools), version)
  }

  /** What the upgraded text parses to: the merged registry whenever it is acceptable and no
      line outgrows the scanner. */
  lemma UpgradedParse(src: string, b: Registry, data: string, reg: Registry, version: string)
    requires IsBuiltin(src, b) && ParseTOML(data) == Ok(reg) && reg.schema == MAX_SCHEMA_VERSION && Unterminated(version)
    ensures var lines := UpgradedLines(src, b, data, reg, version);
            if AllFit(lines) && DefaultsOk(Merged(reg, b)) then ParseTOML(Concat(lines)) == Ok(Merged(reg, b))
            else ParseTOML(Concat(lines)).Err?
  {
    var families, names := Missing(b.defaults, reg.defaults), Missing(b.tools, reg.tools);
    AcceptedTools(data, reg);
    MissingLacks(b.defaults, reg.defaults);
    MissingLacks(b.tools, reg.tools);
    AppendedRun(src, b, data, families, names, version);
    AppendedTerminated(src, data, families, names, version);
    var lines := AppendedLines(src, data, families, names, version);
    RunOfConcat(lines);
    if AllFit(lines) {
      AllFitAppend(Closed(SplitAfter(data), "\n"), Appendix(src, families, names, version, "\n"));
      FinishMerged(src, b, Run(Start, Items(lines)), reg);
    } else {
      TooLongRejects(Start, lines);
    }
  }

  // ---------------------------------------------------------------- building the text

  /** strings.ReplaceAll(s, "\n", newline) */
  function ReplaceNewlines(s: string, newline: string): string {
    if s == "" then "" else (if s[0] == '\n' then newline else [s[0]]) + ReplaceNewlines(s[1..], newline)
  }

  lemma {:induction false} ReplaceAppend(a: string, b: string, newline: string)
    ensures ReplaceNewlines(a + b, newline) == ReplaceNewlines(a, newline) + ReplaceNewlines(b, newline)
  {
    if a == "" {
      assert a + b == b;
    } else {
      assert (a + b)[1..] == a[1..] + b;
      ReplaceAppend(a[1..], b, newline);
    }
  }

  lemma {:induction false} ReplaceInLine(line: string, newline: string)
    requires Unterminated(line)
    ensures ReplaceNewlines(line, newline) == line
  {
    if line != "" {
      assert Unterminated(line[1..]);
      ReplaceInLine(line[1..], newline);
      assert line == [line[0]] + line[1..];
    }
  }

  lemma ReplaceBreak(newline: string)
    ensures ReplaceNewlines("\n", newline) == newline
  {
    assert ['\n'][1..] == "";
    assert ReplaceNewlines("\n", newline) == newline + ReplaceNewlines("", newline);
  }

  lemma {:induction false} ReplaceJoined(body: seq<string>, newline: string)
    requires AllUnterminated(body)
    ensures ReplaceNewlines(Joined(body), newline) == Concat(seq(|body|, i requires 0 <= i < |body| => body[i] + newline))
  {
    if body != [] {
      var k := |body| - 1;
      assert Unterminated(body[k]);
      ReplaceJoined(body[..k], newline);
      ReplaceAppend(Joined(body[..k]), body[k] + "\n", newline);
      ReplaceAppend(body[k], "\n", newline);
      ReplaceInLine(body[k], newline);
      ReplaceBreak(newline);
      var init := seq(k, i requires 0 <= i < k => body[..k][i] + newline);
      assert seq(|body|, i requires 0 <= i < |body| => body[i] + newline) == init + [body[k] + newline];
      ConcatEnd(init, body[k] + newline);
    }
  }

  lemma ReplaceSection(body: seq<string>, newline: string)
    requires AllUnterminated(body)
    ensures ReplaceNewlines(SectionText(body), newline) == Concat(SectionLines(body, newline))
  {
    ReplaceAppend("\n", Joined(body), newline);
    ReplaceBreak(newline);
    ReplaceJoined(body, newline);
    assert SectionLines(body, newline)[1..] == seq(|body|, i requires 0 <= i < |body| => body[i] + newline);
  }

  lemma AppendStep(sections: map<string, seq<string>>, names: seq<string>, newline: string, i: nat)
    requires i < |names| && forall i :: 0 <= i < |names| ==> names[i] in sections
    ensures Concat(AppendSections(sections, names[..i + 1], newline)) ==
            Concat(AppendSections(sections, names[..i], newline)) + Concat(SectionLines(sections[names[i]], newline))
  {
    assert names[..i + 1][..i] == names[..i];
    ConcatAppend(AppendSections(sections, names[..i], newline), SectionLines(sections[names[i]], newline));
  }

  /** The loop that writes the sections of the given names. */
  method WriteSections(texts: map<string, string>, names: seq<string>, newline: string, ghost sections: map<string, seq<string>>)
    returns (out: string)
    requires texts == Texts(sections) && forall n :: n in sections ==> AllUnterminated(sections[n])
    requires forall i :: 0 <= i < |names| ==> names[i] in sections
    ensures out == Concat(AppendSections(sections, names, newline))
  {
    out := "";
    for i := 0 to |names|
      invariant out == Concat(AppendSections(sections, names[..i], newline))
    {
      AppendStep(sections, names, newline, i);
      ReplaceSection(sections[names[i]], newline);
      out := out + ReplaceNewlines(texts[names[i]], newline);
    }
    assert names[..|names|] == names;
  }

  lemma BuiltinHeaders(src: string, b: Registry)
    requires IsBuiltin(src, b)
    ensures NoMalformedHeader(SplitOn(src, '\n'))
  {
    var lines := SplitOn(src, '\n');
    BuiltinRun(src, b);
    forall i | 0 <= i < |lines| ensures ParseSectionHeader(lines[i]) != Malformed {
      RunPrefix(Start, Items(lines), i);
      ReadHeader(lines[i]);
    }
  }

  /** DefaultToolSections and DefaultFamilySections: the built-in text never makes them panic. */
  method DefaultSections(src: string, prefix: string, ghost b: Registry) returns (texts: map<string, string>)
    requires IsBuiltin(src, b)
    ensures texts == Texts(Sections(src, prefix))
    ensures forall n :: n in Sections(src, prefix) ==> AllUnterminated(Sections(src, prefix)[n])
  {
    BuiltinHeaders(src, b);
    BuiltinBodies(src, prefix);
    var r := SectionsFromTOML(src, prefix);
    return r.value;
  }

  lemma AppendixText(src: string, families: seq<string>, names: seq<string>, version: string, newline: string)
    ensures Concat(Appendix(src, families, names, version, newline)) ==
            newline + (ADDED + version + newline)
            + (Concat(AppendSections(Sections(src, DEFAULTS), families, newline))
               + Concat(AppendSections(Sections(src, TOOLS), names, newline)))
  {
    ConcatFour(newline, ADDED + version + newline, AppendSections(Sections(src, DEFAULTS), families, newline),
               AppendSections(Sections(src, TOOLS), names, newline));
  }

  lemma ConcatFour(a: string, b: string, c: seq<string>, d: seq<string>)
    ensures Concat([a, b] + (c + d)) == a + b + (Concat(c) + Concat(d))
  {
    ConcatAppend([a, b], c + d);
    ConcatAppend(c, d);
    ConcatEnd([a], b);
    ConcatOne(a);
    assert [a, b] == [a] + [b];
  }

  datatype Outcome =
    | Unreadable(reason: Reason)
    | NothingToDo
    | Write(text: string)
    | Refused(reason: Reason)
    | Collides
    | Customized

  /** The sorted names of one map that another lacks. */
  method MissingNames<V>(texts: map<string, string>, have: map<string, V>, ghost all: map<string, V>) returns (names: seq<string>)
    requires forall n :: n in texts <==> n in all
    ensures names == Missing(all, have)
  {
    names := SortedElements(set n | n in texts && n !in have);
    assert (set n | n in texts && n !in have) == (set n | n in all && n !in have);
    EnumerationUnique(names, Missing(all, have), set n | n in all && n !in have);
  }

  lemma NothingMissing(b: Registry, reg: Registry)
    requires reg.schema == MAX_SCHEMA_VERSION
    ensures Missing(b.tools, reg.tools) == [] && Missing(b.defaults, reg.defaults) == [] <==> !NeedsDefaultUpgrade(b, reg)
  {
    MissingIsEmpty(b.tools, reg.tools);
    MissingIsEmpty(b.defaults, reg.defaults);
  }

  lemma MissingIsEmpty<V>(all: map<string, V>, have: map<string, V>)
    ensures Missing(all, have) == [] <==> (forall n :: n in all ==> n in have)
  {
    var names := Missing(all, have);
    var absent := set n | n in all && n !in have;
    if names != [] { assert names[0] in absent; }
    forall n | n in all && names == [] ensures n in have {
      assert n in absent <==> n in names;
    }
  }

  method WriteAppendix(src: string, toolTexts: map<string, string>, familyTexts: map<string, string>,
                       families: seq<string>, names: seq<string>, version: string, newline: string) returns (out: string)
    requires toolTexts == Texts(Sections(src, TOOLS)) && familyTexts == Texts(Sections(src, DEFAULTS))
    requires forall i :: 0 <= i < |families| ==> families[i] in Sections(src, DEFAULTS)
    requires forall i :: 0 <= i < |names| ==> names[i] in Sections(src, TOOLS)
    ensures out == Concat(Appendix(src, families, names, version, newline))
  {
    BuiltinBodies(src, DEFAULTS);
    BuiltinBodies(src, TOOLS);
    var fs := WriteSections(familyTexts, families, newline, Sections(src, DEFAULTS));
    var ts := WriteSections(toolTexts, names, newline, Sections(src, TOOLS));
    AppendixText(src, families, names, version, newline);
    return newline + (ADDED + version + newline) + (fs + ts);
  }

  lemma MissingInSections(src: string, b: Registry, reg: Registry)
    requires IsBuiltin(src, b)
    ensures forall n :: n in Sections(src, TOOLS) <==> n in b.tools
    ensures forall f :: f in Sections(src, DEFAULTS) <==> f in b.defaults
    ensures var names := Missing(b.tools, reg.tools); forall i :: 0 <= i < |names| ==> names[i] in Sections(src, TOOLS)
    ensures var families := Missing(b.defaults, reg.defaults);
            forall i :: 0 <= i < |families| ==> families[i] in Sections(src, DEFAULTS)
  {
    SectionsOfBuiltin(src, b);
    MissingLacks(b.tools, reg.tools);
    MissingLacks(b.defaults, reg.defaults);
  }

  lemma UpgradedText(src: string, b: Registry, data: string, reg: Registry, version: string)
    ensures Concat(UpgradedLines(src, b, data, reg, version)) ==
            EndLine(data, "\n")
            + Concat(Appendix(src, Missing(b.defaults, reg.defaults), Missing(b.tools, reg.tools), version, "\n"))
  {
    SplitAfterShape(data);
    ConcatClosed(SplitAfter(data), "\n");
    ConcatAppend(Closed(SplitAfter(data), "\n"),
                 Appendix(src, Missing(b.defaults, reg.defaults), Missing(b.tools, reg.tools), version, "\n"));
  }

  /** The built-in sections, and the names of those the registry lacks. */
  method FindMissing(src: string, ghost b: Registry, reg: Registry)
    returns (toolTexts: map<string, string>, familyTexts: map<string, string>, families: seq<string>, names: seq<string>)
    requires IsBuiltin(src, b)
    ensures toolTexts == Texts(Sections(src, TOOLS)) && familyTexts == Texts(Sections(src, DEFAULTS))
    ensures names == Missing(b.tools, reg.tools) && families == Missing(b.defaults, reg.defaults)
    ensures forall i :: 0 <= i < |families| ==> families[i] in Sections(src, DEFAULTS)
    ensures forall i :: 0 <= i < |names| ==> names[i] in Sections(src, TOOLS)
  {
    toolTexts := DefaultSections(src, TOOLS, b);
    familyTexts := DefaultSections(src, DEFAULTS, b);
    MissingInSections(src, b, reg);
    names := MissingNames(toolTexts, reg.tools, b.tools);
    families := MissingNames(familyTexts, reg.defaults, b.defaults);
  }

  /** The new text, or nothing when no profile and no family is missing. */
  method BuildText(src: string, ghost b: Registry, data: string, reg: Registry, version: string) returns (text: Option<string>)
    requires IsBuiltin(src, b) && reg.schema == MAX_SCHEMA_VERSION
    ensures text.None? <==> !NeedsDefaultUpgrade(b, reg)
    ensures text.Some? ==> text.value == Concat(UpgradedLines(src, b, data, reg, version)) && data <= text.value
  {
    var toolTexts, familyTexts, families, names := FindMissing(src, b, reg);
    NothingMissing(b, reg);
    if |names| == 0 && |families| == 0 { return None; }
    var appendix := WriteAppendix(src, toolTexts, familyTexts, families, names, version, "\n");
    UpgradedText(src, b, data, reg, version);
    return Some(EndLine(data, "\n") + appendix);
  }

  /** Nothing is done exactly when nothing is missing, and the new text is written exactly when
      its lines fit and the merged defaults are acceptable. */
  ghost predicate Appended(src: string, b: Registry, data: string, reg: Registry, version: string, o: Outcome)
    requires IsBuiltin(src, b) && ParseTOML(data) == Ok(reg)
  {
    if !NeedsDefaultUpgrade(b, reg) then o == NothingToDo
    else
      var lines := UpgradedLines(src, b, data, reg, version);
      if AllFit(lines) && DefaultsOk(Merged(reg, b)) then o == Write(Concat(lines)) else o.Refused?
  }

  /** AppendMissingDefaultToolsMode on a registry that already is of schema version 2, from
      the bytes read to the bytes handed to the atomic writer. */
  method AppendMissing(src: string, ghost b: Registry, data: string, reg: Registry, version: string) returns (o: Outcome)
    requires IsBuiltin(src, b) && ParseTOML(data) == Ok(reg) && reg.schema == MAX_SCHEMA_VERSION && Unterminated(version)
    ensures Appended(src, b, data, reg, version, o)
    ensures o.Write? ==> ParseTOML(o.text) == Ok(Merged(reg, b)) && data <= o.text
  {
    var text := BuildText(src, b, data, reg, version);
    if text.None? { return NothingToDo; }
    UpgradedParse(src, b, data, reg, version);
    var again := ParseTOML(text.value);
    if again.Err? { return Refused(again.error); }
    return Write(text.value);
  }
}
