/**
 * Inputs on which the code does less than it promises, each an input it accepts.
 */
module Shortfalls {
  import opened Wrappers
  import opened Text
  import opened Toml
  import opened Registry
  import opened Builtin
  import opened PrintedLines
  import opened Upgrade
  import opened Migration
  import M = Migration
  import A = Aliases
  import D = Decimal
  import S = SwitchDefault

  // ---------------------------------------------------------------- empty labels in a version 1 profile

  const EMPTY: string := M.Quoted("")

  const LABELS: set<string> := {FAMILY_KEY, VERSION_KEY, ALIAS_KEY}

  function Renamed(t: Tool, n: string): Tool {
    t.(name := n)
  }

  /** The profile under another name and without labels. */
  function Unlabelled(t: Tool, n: string): Tool {
    Stripped(t).(name := n)
  }

  lemma KeyIgnoresName(t: Tool, n: string, item: Item)
    ensures ItemTool(Renamed(t, n), item) ==
            match ItemTool(t, item) case Err(reason) => Err(reason) case Ok(u) => Ok(Renamed(u, n))
  {
    var m := Move("", n, "", "", "");
    if item.Assign? {
      KeyCommutes(t, m, LABELS, item.key, item.value);
      assert LABELS + LabelOf(item.key) == LABELS;
    }
  }

  lemma {:induction false} KeysIgnoreName(t: Tool, n: string, keys: seq<Item>)
    ensures KeysTool(Renamed(t, n), keys) ==
            match KeysTool(t, keys) case Err(reason) => Err(reason) case Ok(u) => Ok(Renamed(u, n))
    decreases |keys|
  {
    if keys != [] {
      KeyIgnoresName(t, n, keys[0]);
      var u := ItemTool(t, keys[0]);
      if u.Ok? { KeysIgnoreName(u.value, n, keys[1..]); }
    }
  }

  /** The keys of a section define the same tool under any name. */
  lemma YieldsRenamed(items: seq<Item>, k: string, t: Tool, n: string)
    requires YieldsTool(items, k, t) && IsSection(items, ToolHeader(k)) && ValidToolName(k) && !ReservedToolName(k)
    requires ValidToolName(n) && !ReservedToolName(n)
    ensures YieldsTool([ToolHeader(n)] + items[1..], n, Renamed(t, n))
  {
    var moved := [ToolHeader(n)] + items[1..];
    assert moved[1..] == items[1..];
    assert Renamed(FreshTool(k), n) == FreshTool(n);
    KeysIgnoreName(FreshTool(k), n, items[1..]);
    YieldsKeys(items, k, t);
    YieldsKeys(moved, n, Renamed(t, n));
  }

  function EmptyLabel(key: string): Item {
    Assign(key, EMPTY)
  }

  lemma EmptyLabelApplies(t: Tool)
    ensures ApplyKey(t, FAMILY_KEY, EMPTY) == Ok(t.(defaultFamily := ""))
    ensures ApplyKey(t, VERSION_KEY, EMPTY) == Ok(t.(defaultVersion := ""))
    ensures ApplyKey(t, ALIAS_KEY, EMPTY) == Ok(t.(defaultAlias := ""))
  {
    EmptyQuoteReads();
  }

  lemma EmptyQuoteReads()
    ensures ParseQuoted(EMPTY) == Some("") && ClosedValue(EMPTY) && Unterminated(EMPTY)
  {
    var none := "";
    ParseQuotedQuote(_ => true, none);
    QuoteIsClosed(_ => true, none);
    assert Quote(_ => true, none) == EMPTY;
  }

  /** The items of a version 1 section that spells out all three labels as empty. */
  function EmptiedItems(items: seq<Item>, n: string): seq<Item>
    requires items != []
  {
    [ToolHeader(n)] + items[1..] + [EmptyLabel(FAMILY_KEY)] + [EmptyLabel(VERSION_KEY)] + [EmptyLabel(ALIAS_KEY)]
  }

  lemma EmptiedYields(items: seq<Item>, k: string, t: Tool, n: string)
    requires YieldsTool(items, k, t) && IsSection(items, ToolHeader(k)) && ValidToolName(k) && !ReservedToolName(k)
    requires ValidToolName(n) && !ReservedToolName(n)
    ensures YieldsTool(EmptiedItems(items, n), n, Unlabelled(t, n))
  {
    YieldsRenamed(items, k, t, n);
    var t0 := Renamed(t, n);
    var t1 := t0.(defaultFamily := "");
    var t2 := t1.(defaultVersion := "");
    var items0 := [ToolHeader(n)] + items[1..];
    EmptyLabelApplies(t0);
    YieldsMore(items0, n, t0, EmptyLabel(FAMILY_KEY), t1);
    EmptyLabelApplies(t1);
    YieldsMore(items0 + [EmptyLabel(FAMILY_KEY)], n, t1, EmptyLabel(VERSION_KEY), t2);
    EmptyLabelApplies(t2);
    YieldsMore(items0 + [EmptyLabel(FAMILY_KEY)] + [EmptyLabel(VERSION_KEY)], n, t2, EmptyLabel(ALIAS_KEY), Unlabelled(t, n));
  }

  // -------------------- as text

  function EmptyLine(key: string): string {
    AssignCore(key, EMPTY) + "\n"
  }

  /** A section of the built-in text under another name, with three empty labels after it. */
  function EmptiedLines(body: seq<string>, n: string): seq<string>
    requires body != []
  {
    [HeaderCore(n) + "\n"] + Terminate(body[1..], "\n") + [EmptyLine(FAMILY_KEY)] + [EmptyLine(VERSION_KEY)] + [EmptyLine(ALIAS_KEY)]
  }

  lemma ReadEmptyLine(key: string)
    requires IsLabelKey(key) && FitsScanner(EmptyLine(key))
    ensures Read(EmptyLine(key)) == EmptyLabel(key)
  {
    LabelKeysArePlain();
    EmptyQuoteReads();
    ReadAssignCore(key, EMPTY, "\n");
  }

  lemma ReadHeaderCore(n: string)
    requires ValidToolName(n) && FitsScanner(HeaderCore(n) + "\n")
    ensures Read(HeaderCore(n) + "\n") == ToolHeader(n)
  {
    var nothing := "";
    HeaderCoreReads(n);
    assert HeaderCore(n) + (nothing + nothing) == HeaderCore(n);
    ReadCore(HeaderCore(n), nothing, nothing, "\n");
  }

  lemma ItemsOne(line: string)
    ensures Items([line]) == [Read(line)]
  {
  }

  lemma ReadEmptyLabels()
    requires FitsScanner(EmptyLine(FAMILY_KEY)) && FitsScanner(EmptyLine(VERSION_KEY)) && FitsScanner(EmptyLine(ALIAS_KEY))
    ensures Items([EmptyLine(FAMILY_KEY)]) == [EmptyLabel(FAMILY_KEY)]
    ensures Items([EmptyLine(VERSION_KEY)]) == [EmptyLabel(VERSION_KEY)]
    ensures Items([EmptyLine(ALIAS_KEY)]) == [EmptyLabel(ALIAS_KEY)]
  {
    ReadEmptyLine(FAMILY_KEY);
    ReadEmptyLine(VERSION_KEY);
    ReadEmptyLine(ALIAS_KEY);
    ItemsOne(EmptyLine(FAMILY_KEY));
    ItemsOne(EmptyLine(VERSION_KEY));
    ItemsOne(EmptyLine(ALIAS_KEY));
  }

  lemma ReadEmptiedBody(body: seq<string>, n: string)
    requires body != [] && AllUnterminated(body) && ValidToolName(n)
    requires FitsScanner(HeaderCore(n) + "\n") && AllFit(Terminate(body[1..], "\n"))
    ensures Items([HeaderCore(n) + "\n"] + Terminate(body[1..], "\n")) == [ToolHeader(n)] + Items(body)[1..]
  {
    ItemsAppend([HeaderCore(n) + "\n"], Terminate(body[1..], "\n"));
    ReadHeaderCore(n);
    ItemsOne(HeaderCore(n) + "\n");
    ReadBody(body[1..], "\n");
    assert Items(body)[1..] == Items(body[1..]);
  }

  lemma EmptiedFit(body: seq<string>, n: string)
    requires body != [] && AllFit(EmptiedLines(body, n))
    ensures FitsScanner(HeaderCore(n) + "\n") && AllFit(Terminate(body[1..], "\n"))
    ensures FitsScanner(EmptyLine(FAMILY_KEY)) && FitsScanner(EmptyLine(VERSION_KEY)) && FitsScanner(EmptyLine(ALIAS_KEY))
  {
    var head, tail := [HeaderCore(n) + "\n"], Terminate(body[1..], "\n");
    var l1, l2, l3 := [EmptyLine(FAMILY_KEY)], [EmptyLine(VERSION_KEY)], [EmptyLine(ALIAS_KEY)];
    AllFitAppend(head + tail + l1 + l2, l3);
    AllFitAppend(head + tail + l1, l2);
    AllFitAppend(head + tail, l1);
    AllFitAppend(head, tail);
    OneFits(HeaderCore(n) + "\n");
    OneFits(EmptyLine(FAMILY_KEY));
    OneFits(EmptyLine(VERSION_KEY));
    OneFits(EmptyLine(ALIAS_KEY));
  }

  lemma ReadEmptied(body: seq<string>, n: string)
    requires body != [] && AllUnterminated(body) && AllFit(EmptiedLines(body, n)) && ValidToolName(n)
    ensures Items(EmptiedLines(body, n)) == EmptiedItems(Items(body), n)
  {
    var front := [HeaderCore(n) + "\n"] + Terminate(body[1..], "\n");
    var l1, l2, l3 := [EmptyLine(FAMILY_KEY)], [EmptyLine(VERSION_KEY)], [EmptyLine(ALIAS_KEY)];
    EmptiedFit(body, n);
    ItemsAppend(front + l1 + l2, l3);
    ItemsAppend(front + l1, l2);
    ItemsAppend(front, l1);
    ReadEmptyLabels();
    ReadEmptiedBody(body, n);
  }

  lemma OneFits(line: string)
    ensures AllFit([line]) <==> FitsScanner(line)
  {
    assert [line][0] == line;
  }

  lemma ShortLineFits(line: string)
    requires |line| < 1000 && S.Ascii(line)
    ensures FitsScanner(line + "\n")
  {
    S.FitsByLength(line);
  }

  lemma EmptyLinesFit()
    ensures FitsScanner(EmptyLine(FAMILY_KEY)) && FitsScanner(EmptyLine(VERSION_KEY)) && FitsScanner(EmptyLine(ALIAS_KEY))
  {
    EmptyLineFits(FAMILY_KEY);
    EmptyLineFits(VERSION_KEY);
    EmptyLineFits(ALIAS_KEY);
  }

  lemma EmptyLineFits(key: string)
    requires IsLabelKey(key)
    ensures FitsScanner(EmptyLine(key))
  {
    LabelKeysArePlain();
    KeyIsAscii(key);
    assert EMPTY == ['"', '"'];
    ShortLineFits(AssignCore(key, EMPTY));
  }

  lemma KeyIsAscii(key: string)
    requires PlainKey(key)
    ensures S.Ascii(key)
  {
    assert forall i :: 0 <= i < |key| ==> key[i] in key;
  }

  lemma HeaderFits(n: string)
    requires ValidToolName(n) && |n| < 100
    ensures FitsScanner(HeaderCore(n) + "\n")
  {
    assert forall i :: 0 <= i < |n| ==> NameChar(n[i]);
    ShortLineFits(HeaderCore(n));
  }

  lemma EmptiedLinesFit(body: seq<string>, n: string)
    requires body != [] && AllUnterminated(body) && (forall i :: 0 <= i < |body| ==> Read(body[i]) != TooLong)
    requires ValidToolName(n) && |n| < 100
    ensures AllFit(EmptiedLines(body, n))
  {
    var tail := Terminate(body[1..], "\n");
    forall i | 0 <= i < |tail| ensures FitsScanner(tail[i]) {
      FitsWithNewline(body[i + 1]);
    }
    HeaderFits(n);
    EmptyLinesFit();
    AllFitAppend([HeaderCore(n) + "\n"], tail);
    AllFitAppend([HeaderCore(n) + "\n"] + tail, [EmptyLine(FAMILY_KEY)]);
    AllFitAppend([HeaderCore(n) + "\n"] + tail + [EmptyLine(FAMILY_KEY)], [EmptyLine(VERSION_KEY)]);
    AllFitAppend([HeaderCore(n) + "\n"] + tail + [EmptyLine(FAMILY_KEY)] + [EmptyLine(VERSION_KEY)], [EmptyLine(ALIAS_KEY)]);
  }

  lemma EmptiedTerminated(body: seq<string>, n: string)
    requires body != [] && AllUnterminated(body) && ValidToolName(n)
    ensures AllTerminated(EmptiedLines(body, n))
  {
    var tail := Terminate(body[1..], "\n");
    forall i | 0 <= i < |tail| ensures Terminated(tail[i]) {
      LineTerminated(body[i + 1], "\n");
    }
    assert forall c :: c in n ==> NameChar(c);
    assert '\n' !in HeaderCore(n);
    LineTerminated(HeaderCore(n), "\n");
    EmptyLineTerminated(FAMILY_KEY);
    EmptyLineTerminated(VERSION_KEY);
    EmptyLineTerminated(ALIAS_KEY);
  }

  lemma EmptyLineTerminated(key: string)
    requires IsLabelKey(key)
    ensures Terminated(EmptyLine(key))
  {
    LabelKeysArePlain();
    EmptyQuoteReads();
    AssignUnterminated(key, EMPTY);
    LineTerminated(AssignCore(key, EMPTY), "\n");
  }

  // -------------------- the whole text

  /** Two profiles of one alias, as the migration table has them for `node`. */
  predicate Twins(table: seq<Move>, b: Registry, m: Move, k: Move) {
    && TableOk(table) && m in table && k in table && m != k && m.alias == k.alias
    && LeadsTo(m, b) && LeadsTo(k, b)
    && OldNameOk(m) && OldNameOk(k)
  }

  function BodyOfTool(src: string, n: string): seq<string> {
    BodyOf(Sections(src, TOOLS), n)
  }

  /** A version 1 registry of the two profiles, each with three empty labels. */
  function EmptiedText(src: string, m: Move, k: Move): seq<string>
    requires BodyOfTool(src, m.newName) != [] && BodyOfTool(src, k.newName) != []
  {
    EmptiedLines(BodyOfTool(src, m.newName), m.oldName) + EmptiedLines(BodyOfTool(src, k.newName), k.oldName)
  }

  /** What is known of a tool section of the built-in text. */
  lemma BodyFacts(src: string, b: Registry, n: string)
    requires IsBuiltin(src, b) && n in b.tools && n != ""
    ensures var body := BodyOfTool(src, n);
            && body != [] && AllUnterminated(body) && IsSection(Items(body), ToolHeader(n))
            && YieldsTool(Items(body), n, b.tools[n])
  {
    SectionsOfBuiltin(src, b);
    ToolSectionShape(src, b, n);
    BuiltinBodies(src, TOOLS);
  }

  lemma SectionLinesFit(body: seq<string>, n: string)
    requires IsSection(Items(body), ToolHeader(n))
    ensures forall i :: 0 <= i < |body| ==> Read(body[i]) != TooLong
  {
    forall i | 0 <= i < |body| ensures Read(body[i]) != TooLong { assert Items(body)[i] == Read(body[i]); }
  }

  predicate OldNameOk(m: Move) {
    ValidToolName(m.oldName) && !ReservedToolName(m.oldName) && |m.oldName| < 100
  }

  /** The lines of one such section, and their items. */
  lemma EmptiedShape(src: string, b: Registry, m: Move)
    requires IsBuiltin(src, b) && m.newName in b.tools && MoveOk(m) && OldNameOk(m)
    ensures BodyOfTool(src, m.newName) != []
    ensures var lines := EmptiedLines(BodyOfTool(src, m.newName), m.oldName);
            AllTerminated(lines) && Items(lines) == EmptiedItems(Items(BodyOfTool(src, m.newName)), m.oldName)
  {
    var body := BodyOfTool(src, m.newName);
    BodyFacts(src, b, m.newName);
    SectionLinesFit(body, m.newName);
    EmptiedLinesFit(body, m.oldName);
    EmptiedTerminated(body, m.oldName);
    ReadEmptied(body, m.oldName);
  }

  function EmptiedRegistry(b: Registry, m: Move, k: Move): Registry
    requires m.newName in b.tools && k.newName in b.tools
  {
    Registry(1, map[m.oldName := Unlabelled(b.tools[m.newName], m.oldName), k.oldName := Unlabelled(b.tools[k.newName], k.oldName)],
             map[])
  }

  lemma MoveInTable(table: seq<Move>, m: Move)
    requires TableOk(table) && m in table
    ensures MoveOk(m)
  {
    var i :| 0 <= i < |table| && table[i] == m;
  }

  lemma UnlabelledOk(src: string, b: Registry, n: string, old_: string)
    requires IsBuiltin(src, b) && n in b.tools
    ensures ToolOk(Unlabelled(b.tools[n], old_)) && !HasMetadata(Unlabelled(b.tools[n], old_))
  {
    BuiltinToolsOk(src, b, n);
    var t, u := b.tools[n], Unlabelled(b.tools[n], old_);
    assert u.hostMounts == t.hostMounts && u.projectVolumes + u.sharedVolumes == t.projectVolumes + t.sharedVolumes;
  }

  /** Two sections one after the other, each yielding its tool. */
  lemma RunPair(one: seq<string>, two: seq<string>, n: string, t: Tool, p: string, u: Tool)
    requires n != p && AllTerminated(one) && AllTerminated(two)
    requires YieldsTool(Items(one), n, t) && YieldsTool(Items(two), p, u)
    ensures AllTerminated(one + two)
    ensures Run(Start, Items(one + two)) == Reading(1, map[n := t, p := u], map[], InTool(p))
  {
    RunLines(Start, one, two);
    assert Run(Start, Items(one)) == Reading(1, map[][n := t], map[], InTool(n));
  }

  lemma EmptiedSection(src: string, b: Registry, m: Move)
    requires IsBuiltin(src, b) && m.newName in b.tools && MoveOk(m) && OldNameOk(m)
    ensures BodyOfTool(src, m.newName) != []
    ensures AllTerminated(EmptiedLines(BodyOfTool(src, m.newName), m.oldName))
    ensures YieldsTool(Items(EmptiedLines(BodyOfTool(src, m.newName), m.oldName)), m.oldName,
                       Unlabelled(b.tools[m.newName], m.oldName))
  {
    EmptiedShape(src, b, m);
    BodyFacts(src, b, m.newName);
    EmptiedYields(Items(BodyOfTool(src, m.newName)), m.newName, b.tools[m.newName], m.oldName);
  }

  lemma RunBoth(src: string, b: Registry, m: Move, k: Move)
    requires IsBuiltin(src, b) && m.newName in b.tools && k.newName in b.tools && MoveOk(m) && MoveOk(k)
    requires OldNameOk(m) && OldNameOk(k) && m.oldName != k.oldName
    ensures BodyOfTool(src, m.newName) != [] && BodyOfTool(src, k.newName) != []
    ensures AllTerminated(EmptiedText(src, m, k))
    ensures Run(Start, Items(EmptiedText(src, m, k))) == Reading(1, EmptiedRegistry(b, m, k).tools, map[], InTool(k.oldName))
  {
    EmptiedSection(src, b, m);
    EmptiedSection(src, b, k);
    RunPair(EmptiedLines(BodyOfTool(src, m.newName), m.oldName), EmptiedLines(BodyOfTool(src, k.newName), k.oldName),
            m.oldName, Unlabelled(b.tools[m.newName], m.oldName), k.oldName, Unlabelled(b.tools[k.newName], k.oldName));
  }

  /** The text is an accepted version 1 registry. */
  lemma EmptiedIsAccepted(src: string, b: Registry, table: seq<Move>, m: Move, k: Move)
    requires IsBuiltin(src, b) && Twins(table, b, m, k)
    ensures BodyOfTool(src, m.newName) != [] && BodyOfTool(src, k.newName) != []
    ensures ParseTOML(Concat(EmptiedText(src, m, k))) == Ok(EmptiedRegistry(b, m, k))
  {
    MoveInTable(table, m);
    MoveInTable(table, k);
    ApartInTable(table, m, k);
    RunBoth(src, b, m, k);
    EmptiedToolsOk(src, b, m, k);
    ParseEmptied(EmptiedText(src, m, k), EmptiedRegistry(b, m, k), InTool(k.oldName));
  }

  lemma EmptiedToolsOk(src: string, b: Registry, m: Move, k: Move)
    requires IsBuiltin(src, b) && m.newName in b.tools && k.newName in b.tools
    ensures var tools := EmptiedRegistry(b, m, k).tools;
            tools != map[] && forall n :: n in tools ==> ToolOk(tools[n]) && !HasMetadata(tools[n])
  {
    UnlabelledOk(src, b, m.newName, m.oldName);
    UnlabelledOk(src, b, k.newName, k.oldName);
    assert m.oldName in EmptiedRegistry(b, m, k).tools;
  }

  lemma ParseEmptied(lines: seq<string>, reg: Registry, at: Cursor)
    requires AllTerminated(lines) && Run(Start, Items(lines)) == Reading(1, reg.tools, map[], at)
    requires reg.schema == 1 && reg.defaults == map[] && reg.tools != map[]
    requires forall n :: n in reg.tools ==> ToolOk(reg.tools[n]) && !HasMetadata(reg.tools[n])
    ensures ParseTOML(Concat(lines)) == Ok(reg)
  {
    RunOfConcat(lines);
    FinishEmptied(reg, Run(Start, Items(lines)));
  }

  lemma FinishEmptied(reg: Registry, st: State)
    requires st.Reading? && st.schema == reg.schema == 1 && st.tools == reg.tools && st.defaults == reg.defaults == map[]
    requires reg.tools != map[] && forall n :: n in reg.tools ==> ToolOk(reg.tools[n]) && !HasMetadata(reg.tools[n])
    ensures Finish(st) == Ok(reg)
  {
    assert DefaultsOk(reg);
  }

  // -------------------- what the migration makes of it

  /** Every label key is set in the section of `n` when the section ends with all three. */
  lemma LabelsSeen(items: seq<Item>, n: string)
    requires Run(Start, items).Reading? && Run(Start, items).at == InTool(n) && n in Run(Start, items).tools
    ensures var more := items + [EmptyLabel(FAMILY_KEY)] + [EmptyLabel(VERSION_KEY)] + [EmptyLabel(ALIAS_KEY)];
            LABELS <= LabelKeys(more, n)
  {
    var i1 := items + [EmptyLabel(FAMILY_KEY)];
    var i2 := i1 + [EmptyLabel(VERSION_KEY)];
    OneLabelSeen(items, n, FAMILY_KEY);
    OneLabelSeen(i1, n, VERSION_KEY);
    OneLabelSeen(i2, n, ALIAS_KEY);
  }

  lemma OneLabelSeen(items: seq<Item>, n: string, key: string)
    requires Run(Start, items).Reading? && Run(Start, items).at == InTool(n) && n in Run(Start, items).tools && IsLabelKey(key)
    ensures var more := items + [EmptyLabel(key)];
            && LabelKeys(more, n) == LabelKeys(items, n) + {key}
            && Run(Start, more).Reading? && Run(Start, more).at == InTool(n) && n in Run(Start, more).tools
  {
    var st, item := Run(Start, items), EmptyLabel(key);
    LabelKeysStep(items, item, n);
    RunAppend(Start, items, [item]);
    RunOne(st, item);
    EmptyLabelApplies(st.tools[n]);
    KeyStep(st, n, item);
  }

  lemma {:induction false} LabelsStay(items: seq<Item>, more: seq<Item>, n: string)
    ensures LabelKeys(items, n) <= LabelKeys(items + more, n)
    decreases |more|
  {
    if more == [] {
      assert items + more == items;
    } else {
      LabelKeysStep(items, more[0], n);
      LabelsStay(items + [more[0]], more[1..], n);
      assert items + more == items + [more[0]] + more[1..];
    }
  }

  /** One profile loses its metadata, whatever else the registry holds. */
  lemma RelabelledToNothing(t: Tool, m: Move, keys: set<string>)
    requires LABELS <= keys
    ensures Relabelled(Unlabelled(t, m.oldName), m, keys) == Unlabelled(t, m.newName)
  {
  }

  /** Taking an alias away from every version of its family keeps a registry acceptable, as
      long as the selected version still supplies another. */
  lemma DropAlias(b: Registry, c: Registry, alias: string)
    requires DefaultsOk(b) && c.schema == b.schema && c.defaults == b.defaults && c.tools.Keys == b.tools.Keys
    requires forall n :: n in b.tools ==>
               if HasMetadata(b.tools[n]) && b.tools[n].defaultAlias == alias then !HasMetadata(c.tools[n])
               else c.tools[n] == b.tools[n]
    requires forall f :: f in b.defaults ==> AliasesOf(b.tools, f, b.defaults[f]) != {alias}
    ensures DefaultsOk(c)
  {
    forall f, v ensures AliasesOf(c.tools, f, v) == AliasesOf(b.tools, f, v) - {alias} {
      DropAliasOf(b, c, alias, f, v);
    }
    forall f | f in c.defaults ensures FamilyOk(c.tools, f, c.defaults[f]) {
      assert FamilyOk(b.tools, f, b.defaults[f]);
      DropFamily(b, c, alias, f);
    }
    assert ToolsLabelled(c) by { DropLabels(b, c, alias); }
  }

  lemma DropAliasOf(b: Registry, c: Registry, alias: string, f: string, v: string)
    requires c.tools.Keys == b.tools.Keys
    requires forall n :: n in b.tools ==>
               if HasMetadata(b.tools[n]) && b.tools[n].defaultAlias == alias then !HasMetadata(c.tools[n])
               else c.tools[n] == b.tools[n]
    ensures AliasesOf(c.tools, f, v) == AliasesOf(b.tools, f, v) - {alias}
  {
  }

  lemma DropFamily(b: Registry, c: Registry, alias: string, f: string)
    requires f in b.defaults && c.defaults == b.defaults && c.tools.Keys == b.tools.Keys
    requires FamilyOk(b.tools, f, b.defaults[f]) && AliasesOf(b.tools, f, b.defaults[f]) != {alias}
    requires forall n :: n in b.tools && HasMetadata(c.tools[n]) ==> c.tools[n] == b.tools[n]
    requires forall v :: AliasesOf(c.tools, f, v) == AliasesOf(b.tools, f, v) - {alias}
    ensures FamilyOk(c.tools, f, c.defaults[f])
  {
    var sel := b.defaults[f];
    var all := AliasesOf(b.tools, f, sel);
    assert all - {alias} == {} ==> all <= {alias};
    assert all <= {alias} ==> all == {} || all == {alias};
  }

  lemma DropLabels(b: Registry, c: Registry, alias: string)
    requires ToolsLabelled(b) && c.schema == b.schema && c.tools.Keys == b.tools.Keys
    requires forall n :: n in b.tools && HasMetadata(c.tools[n]) ==> c.tools[n] == b.tools[n]
    ensures ToolsLabelled(c)
  {
    forall n | n in c.tools ensures MetadataOk(c.schema, c.tools.Keys, c.tools[n]) {
      assert MetadataOk(b.schema, b.tools.Keys, b.tools[n]);
    }
    forall n, k | n in c.tools && k in c.tools && n != k ensures Compatible(c.tools[n], c.tools[k]) {
      assert Compatible(b.tools[n], b.tools[k]);
    }
  }

  lemma {:induction false} ActiveHas(table: seq<Move>, tools: map<string, Tool>, m: Move)
    requires TableOk(table) && m in table && m.oldName in tools
    ensures m.oldName in Active(table, tools) && Active(table, tools)[m.oldName] == m
    decreases |table|
  {
    var k := |table| - 1;
    assert table == table[..k] + [table[k]];
    if table[k] != m {
      assert m in table[..k];
      ApartInTable(table, m, table[k]);
      TablePrefix(table);
      ActiveHas(table[..k], tools, m);
    }
  }

  lemma TablePrefix(table: seq<Move>)
    requires TableOk(table) && table != []
    ensures TableOk(table[..|table| - 1])
  {
  }

  /** The moves fit: the profiles are stock, and nothing is in their way. */
  lemma EmptiedFits(b: Registry, table: seq<Move>, m: Move, k: Move)
    requires Twins(table, b, m, k)
    ensures AllFits(table, EmptiedRegistry(b, m, k).tools, b)
  {
    var tools := EmptiedRegistry(b, m, k).tools;
    ApartInTable(table, m, k);
    forall i | 0 <= i < |table| ensures MoveFits(table[i], tools, b) {
      ApartInTable(table, table[i], m);
      ApartInTable(table, table[i], k);
      if table[i] == m || table[i] == k { EmptiedStock(b, m, k, table[i]); }
    }
  }

  lemma EmptiedStock(b: Registry, m: Move, k: Move, x: Move)
    requires m.newName in b.tools && k.newName in b.tools && Apart(m, k) && (x == m || x == k)
    ensures IsStock(EmptiedRegistry(b, m, k).tools[x.oldName], x, b)
  {
  }

  /** A section sets every label key, wherever it is appended. */
  lemma SectionLabels(src: string, b: Registry, m: Move, before: seq<Item>)
    requires IsBuiltin(src, b) && m.newName in b.tools && MoveOk(m) && OldNameOk(m)
    requires Run(Start, before).Reading? && m.oldName !in Run(Start, before).tools
    ensures BodyOfTool(src, m.newName) != []
    ensures LABELS <= LabelKeys(before + EmptiedItems(Items(BodyOfTool(src, m.newName)), m.oldName), m.oldName)
  {
    RunFront(src, b, m, Run(Start, before));
    var front := [ToolHeader(m.oldName)] + Items(BodyOfTool(src, m.newName))[1..];
    RunAppend(Start, before, front);
    LabelsSeen(before + front, m.oldName);
    EmptiedItemsSplit(before, Items(BodyOfTool(src, m.newName)), m.oldName);
  }

  lemma EmptiedItemsSplit(before: seq<Item>, items: seq<Item>, n: string)
    requires items != []
    ensures before + EmptiedItems(items, n) ==
            before + ([ToolHeader(n)] + items[1..]) + [EmptyLabel(FAMILY_KEY)] + [EmptyLabel(VERSION_KEY)] + [EmptyLabel(ALIAS_KEY)]
  {
  }

  /** One such section, appended anywhere. */
  lemma RunEmptied(src: string, b: Registry, m: Move, st: State)
    requires IsBuiltin(src, b) && m.newName in b.tools && MoveOk(m) && OldNameOk(m)
    requires st.Reading? && m.oldName !in st.tools
    ensures BodyOfTool(src, m.newName) != []
    ensures Run(st, EmptiedItems(Items(BodyOfTool(src, m.newName)), m.oldName)) ==
            Reading(st.schema, st.tools[m.oldName := Unlabelled(b.tools[m.newName], m.oldName)], st.defaults, InTool(m.oldName))
  {
    BodyFacts(src, b, m.newName);
    EmptiedYields(Items(BodyOfTool(src, m.newName)), m.newName, b.tools[m.newName], m.oldName);
  }

  /** Both sections set every label key. */
  lemma EmptiedLabels(src: string, b: Registry, m: Move, k: Move)
    requires IsBuiltin(src, b) && m.newName in b.tools && k.newName in b.tools && MoveOk(m) && MoveOk(k)
    requires OldNameOk(m) && OldNameOk(k) && m.oldName != k.oldName
    ensures BodyOfTool(src, m.newName) != [] && BodyOfTool(src, k.newName) != []
    ensures LABELS <= LabelKeys(Items(EmptiedText(src, m, k)), m.oldName)
    ensures LABELS <= LabelKeys(Items(EmptiedText(src, m, k)), k.oldName)
  {
    EmptiedShape(src, b, m);
    EmptiedShape(src, b, k);
    ItemsAppend(EmptiedLines(BodyOfTool(src, m.newName), m.oldName), EmptiedLines(BodyOfTool(src, k.newName), k.oldName));
    RunEmptied(src, b, m, Start);
    var first := EmptiedItems(Items(BodyOfTool(src, m.newName)), m.oldName);
    SectionLabels(src, b, m, []);
    assert [] + first == first;
    LabelsStay(first, EmptiedItems(Items(BodyOfTool(src, k.newName)), k.oldName), m.oldName);
    SectionLabels(src, b, k, first);
  }

  /** The section before its three empty labels. */
  lemma RunFront(src: string, b: Registry, m: Move, st: State)
    requires IsBuiltin(src, b) && m.newName in b.tools && MoveOk(m) && OldNameOk(m)
    requires st.Reading? && m.oldName !in st.tools
    ensures BodyOfTool(src, m.newName) != []
    ensures var end := Run(st, [ToolHeader(m.oldName)] + Items(BodyOfTool(src, m.newName))[1..]);
            end.Reading? && end.at == InTool(m.oldName) && m.oldName in end.tools
  {
    BodyFacts(src, b, m.newName);
    YieldsRenamed(Items(BodyOfTool(src, m.newName)), m.newName, b.tools[m.newName], m.oldName);
  }

  /** Only the two profiles supply their alias, and never as the only one of a selection. */
  ghost predicate SoleSuppliers(b: Registry, m: Move, k: Move) {
    && (forall n :: n in b.tools && HasMetadata(b.tools[n]) && b.tools[n].defaultAlias == m.alias ==> n == m.newName || n == k.newName)
    && (forall f :: f in b.defaults ==> AliasesOf(b.tools, f, b.defaults[f]) != {m.alias})
  }

  /** The registry after the upgrade. */
  ghost function AfterUpgrade(src: string, b: Registry, table: seq<Move>, m: Move, k: Move): Registry
    requires BodyOfTool(src, m.newName) != [] && BodyOfTool(src, k.newName) != []
    requires m.newName in b.tools && k.newName in b.tools
    requires MovesOk(Active(table, EmptiedRegistry(b, m, k).tools), EmptiedRegistry(b, m, k).tools.Keys)
  {
    var reg := EmptiedRegistry(b, m, k);
    Merged(MovedRegistry(Active(table, reg.tools), Concat(EmptiedText(src, m, k)), reg), b)
  }

  lemma MovedBare(moves: Moves, items: seq<Item>, b: Registry, m: Move, k: Move)
    requires m.newName in b.tools && k.newName in b.tools && Apart(m, k)
    requires var tools := EmptiedRegistry(b, m, k).tools;
             MovesOk(moves, tools.Keys) && m.oldName in moves && moves[m.oldName] == m && k.oldName in moves && moves[k.oldName] == k
    requires LABELS <= LabelKeys(items, m.oldName) && LABELS <= LabelKeys(items, k.oldName)
    ensures MovedTools(moves, items, EmptiedRegistry(b, m, k).tools) ==
            map[m.newName := Unlabelled(b.tools[m.newName], m.newName), k.newName := Unlabelled(b.tools[k.newName], k.newName)]
  {
    var tools := EmptiedRegistry(b, m, k).tools;
    var u, v := Unlabelled(b.tools[m.newName], m.newName), Unlabelled(b.tools[k.newName], k.newName);
    RelabelledToNothing(b.tools[m.newName], m, LabelKeys(items, m.oldName));
    RelabelledToNothing(b.tools[k.newName], k, LabelKeys(items, k.oldName));
    MovedPair(moves, items, tools, m, k, u, v);
  }

  lemma MovedPair(moves: Moves, items: seq<Item>, tools: map<string, Tool>, m: Move, k: Move, u: Tool, v: Tool)
    requires tools.Keys == {m.oldName, k.oldName} && MovesOk(moves, tools.Keys) && Apart(m, k)
    requires m.oldName in moves && moves[m.oldName] == m && k.oldName in moves && moves[k.oldName] == k
    requires Relabelled(tools[m.oldName], m, LabelKeys(items, m.oldName)) == u
    requires Relabelled(tools[k.oldName], k, LabelKeys(items, k.oldName)) == v
    ensures MovedTools(moves, items, tools) == map[m.newName := u, k.newName := v]
  {
    MovedKeys(moves, items, tools, m, k);
    MovedEntry(moves, items, tools, m, u);
    MovedEntry(moves, items, tools, k, v);
    PairMap(MovedTools(moves, items, tools), m.newName, u, k.newName, v);
  }

  lemma MovedKeys(moves: Moves, items: seq<Item>, tools: map<string, Tool>, m: Move, k: Move)
    requires tools.Keys == {m.oldName, k.oldName} && MovesOk(moves, tools.Keys)
    requires m.oldName in moves && moves[m.oldName] == m && k.oldName in moves && moves[k.oldName] == k
    ensures MovedTools(moves, items, tools).Keys == {m.newName, k.newName}
  {
    assert NewName(moves, m.oldName) == m.newName && NewName(moves, k.oldName) == k.newName;
  }

  lemma MovedEntry(moves: Moves, items: seq<Item>, tools: map<string, Tool>, m: Move, u: Tool)
    requires m.oldName in tools && MovesOk(moves, tools.Keys) && m.oldName in moves && moves[m.oldName] == m
    requires Relabelled(tools[m.oldName], m, LabelKeys(items, m.oldName)) == u
    ensures m.newName in MovedTools(moves, items, tools) && MovedTools(moves, items, tools)[m.newName] == u
  {
    assert NewName(moves, m.oldName) == m.newName;
  }

  lemma PairMap<V>(c: map<string, V>, n: string, u: V, p: string, v: V)
    requires c.Keys == {n, p} && n != p && c[n] == u && c[p] == v
    ensures c == map[n := u, p := v]
  {
    assert forall x :: x in c <==> x == n || x == p;
  }

  /** The parsed items of the text are those of its lines, up to the empty line at the end. */
  lemma LabelsOfText(lines: seq<string>, n: string)
    requires AllTerminated(lines)
    ensures LabelKeys(Items(SplitAfter(Concat(lines))), n) == LabelKeys(Items(lines), n)
  {
    TextLines(lines);
    ReadEmpty();
    ItemsAppend(lines, [""]);
    assert Items([""]) == [Blank];
    LabelKeysStep(Items(lines), Blank, n);
  }

  lemma TextLines(lines: seq<string>)
    requires AllTerminated(lines)
    ensures SplitAfter(Concat(lines)) == lines + [""]
  {
    SplitConcat(lines);
    if lines != [] {
      var last := lines[|lines| - 1];
      assert Terminated(last);
      assert last[|last| - 1] == '\n';
    }
  }

  lemma EmptiedMerged(src: string, b: Registry, table: seq<Move>, m: Move, k: Move)
    requires IsBuiltin(src, b) && Twins(table, b, m, k)
    ensures BodyOfTool(src, m.newName) != [] && BodyOfTool(src, k.newName) != []
    ensures MovesOk(Active(table, EmptiedRegistry(b, m, k).tools), EmptiedRegistry(b, m, k).tools.Keys)
    ensures var c := AfterUpgrade(src, b, table, m, k);
            && c.schema == MAX_SCHEMA_VERSION && c.defaults == b.defaults + map[]
            && c.tools == b.tools + map[m.newName := Unlabelled(b.tools[m.newName], m.newName),
                                        k.newName := Unlabelled(b.tools[k.newName], k.newName)]
  {
    var tools := EmptiedRegistry(b, m, k).tools;
    MoveInTable(table, m);
    MoveInTable(table, k);
    ApartInTable(table, m, k);
    EmptiedFits(b, table, m, k);
    ActiveOk(table, tools, b);
    ActiveHas(table, tools, m);
    ActiveHas(table, tools, k);
    EmptiedLabels(src, b, m, k);
    RunBoth(src, b, m, k);
    var lines := EmptiedText(src, m, k);
    LabelsOfText(lines, m.oldName);
    LabelsOfText(lines, k.oldName);
    MovedBare(Active(table, tools), Items(SplitAfter(Concat(lines))), b, m, k);
  }

  /** A version 1 registry that is accepted, whose profiles are all stock, and whose migration
      is acceptable, although the migrated profiles are not the built-in ones: with all three
      labels spelled out as empty they lose their alias, which then no longer resolves. */
  lemma EmptyLabelsLoseAnAlias(src: string, b: Registry, table: seq<Move>, m: Move, k: Move)
    requires IsBuiltin(src, b) && Twins(table, b, m, k) && SoleSuppliers(b, m, k)
    ensures BodyOfTool(src, m.newName) != [] && BodyOfTool(src, k.newName) != []
    ensures var data, reg := Concat(EmptiedText(src, m, k)), EmptiedRegistry(b, m, k);
            && ParseTOML(data) == Ok(reg) && reg.schema == 1 && AllFits(table, reg.tools, b)
            && MovesOk(Active(table, reg.tools), reg.tools.Keys)
            && var c := AfterUpgrade(src, b, table, m, k);
               && DefaultsOk(c)
               && m.newName in c.tools && c.tools[m.newName] != b.tools[m.newName]
               && m.alias in A.InvokableNames(b) && m.alias !in A.InvokableNames(c)
  {
    EmptiedIsAccepted(src, b, table, m, k);
    EmptiedFits(b, table, m, k);
    EmptiedMerged(src, b, table, m, k);
    MoveInTable(table, m);
    AcceptedDefaults(src, b);
    AliasGoes(b, AfterUpgrade(src, b, table, m, k), m, k);
  }

  /** The registry without the labels of the two suppliers of an alias. */
  lemma AliasGoes(b: Registry, c: Registry, m: Move, k: Move)
    requires DefaultsOk(b) && LeadsTo(m, b) && LeadsTo(k, b) && MoveOk(m) && m.alias == k.alias && SoleSuppliers(b, m, k)
    requires c.schema == b.schema && c.defaults == b.defaults + map[]
    requires c.tools == b.tools + map[m.newName := Unlabelled(b.tools[m.newName], m.newName),
                                      k.newName := Unlabelled(b.tools[k.newName], k.newName)]
    ensures DefaultsOk(c) && m.newName in c.tools && c.tools[m.newName] != b.tools[m.newName]
    ensures m.alias in A.InvokableNames(b) && m.alias !in A.InvokableNames(c)
  {
    AddNone(b.defaults, map[]);
    TwoDropped(b, c, m, k);
    DropAlias(b, c, m.alias);
    AliasIsLost(b, c, m);
  }

  lemma TwoDropped(b: Registry, c: Registry, m: Move, k: Move)
    requires LeadsTo(m, b) && LeadsTo(k, b) && MoveOk(m) && m.alias == k.alias && SoleSuppliers(b, m, k)
    requires c.tools == b.tools + map[m.newName := Unlabelled(b.tools[m.newName], m.newName),
                                      k.newName := Unlabelled(b.tools[k.newName], k.newName)]
    ensures c.tools.Keys == b.tools.Keys && c.tools[m.newName] != b.tools[m.newName]
    ensures forall n :: n in b.tools ==>
              (if HasMetadata(b.tools[n]) && b.tools[n].defaultAlias == m.alias then !HasMetadata(c.tools[n])
               else c.tools[n] == b.tools[n])
  {
    assert c.tools[m.newName] == Unlabelled(b.tools[m.newName], m.newName) || m.newName == k.newName;
    forall n | n in b.tools
      ensures if HasMetadata(b.tools[n]) && b.tools[n].defaultAlias == m.alias then !HasMetadata(c.tools[n])
              else c.tools[n] == b.tools[n]
    {
      if n == m.newName || n == k.newName { assert c.tools[n] == Unlabelled(b.tools[n], n); }
    }
  }

  lemma AcceptedDefaults(src: string, b: Registry)
    requires IsBuiltin(src, b)
    ensures DefaultsOk(b) && b.schema == MAX_SCHEMA_VERSION
  {
  }

  lemma AliasIsLost(b: Registry, c: Registry, m: Move)
    requires DefaultsOk(b) && c.defaults == b.defaults && c.tools.Keys == b.tools.Keys && LeadsTo(m, b) && MoveOk(m)
    requires forall n :: n in b.tools ==>
               if HasMetadata(b.tools[n]) && b.tools[n].defaultAlias == m.alias then !HasMetadata(c.tools[n])
               else c.tools[n] == b.tools[n]
    ensures m.alias in A.InvokableNames(b) && m.alias !in A.InvokableNames(c)
  {
    A.AliasIsInvokable(b, m.newName);
    assert MetadataOk(b.schema, b.tools.Keys, b.tools[m.newName]);
    A.InvokableName(c, m.alias);
  }

  /** The two `node` profiles of the migration table are such a pair. */
  lemma NodeTwins(b: Registry)
    requires LeadsTo(V1_NODE_MIGRATIONS[0], b) && LeadsTo(V1_NODE_MIGRATIONS[3], b)
    ensures Twins(V1_NODE_MIGRATIONS, b, V1_NODE_MIGRATIONS[0], V1_NODE_MIGRATIONS[3])
  {
    TheTableIsOk();
    NodeNames();
  }

  lemma NodeNames()
    ensures OldNameOk(V1_NODE_MIGRATIONS[0]) && OldNameOk(V1_NODE_MIGRATIONS[3])
    ensures V1_NODE_MIGRATIONS[0] != V1_NODE_MIGRATIONS[3] && V1_NODE_MIGRATIONS[0].alias == V1_NODE_MIGRATIONS[3].alias
  {
  }

  // ---------------------------------------------------------------- a selection line that outgrows the scanner

  /** A comment that fills the line of a tight selection to the scanner's limit. */
  function LongComment(current: string): string
    requires |current| < 1000
  {
    seq(65525 - |current|, _ => '#')
  }

  function FamilyLine(f: string): string {
    "[" + (DEFAULTS + f) + "]" + "\n"
  }

  function SelectionLine(current: string): string
    requires |current| < 1000
  {
    S.TightLine(current) + LongComment(current) + "\n"
  }

  lemma FamilySection(f: string)
    requires ValidToolName(f)
    ensures PlainSection(DEFAULTS + f) && HeaderItem(DEFAULTS + f) == FamilyHeader(f)
  {
    FamilySectionIsPlain(f);
    var section := DEFAULTS + f;
    assert section[|DEFAULTS|..] == f;
    assert section[0] == 'd' && TOOLS[0] == 't';
    TrimTrimmed(f);
    NamesAreVersions(f);
  }

  lemma FamilySectionIsPlain(f: string)
    requires ValidToolName(f)
    ensures PlainSection(DEFAULTS + f)
  {
    var section := DEFAULTS + f;
    assert forall c :: c in f ==> NameChar(c);
    assert section[|section| - 1] == f[|f| - 1] && f[|f| - 1] in f;
  }

  lemma FamilyLineFits(f: string)
    requires ValidToolName(f) && |f| < 100
    ensures FitsScanner(FamilyLine(f)) && Terminated(FamilyLine(f))
  {
    assert forall i :: 0 <= i < |f| ==> NameChar(f[i]);
    var line := "[" + (DEFAULTS + f) + "]";
    assert S.Ascii(line);
    ShortLineFits(line);
    LineTerminated(line, "\n");
  }

  lemma FamilyLineMeans(f: string)
    requires ValidToolName(f)
    ensures ClosedValue("[" + (DEFAULTS + f) + "]") && ItemOf("[" + (DEFAULTS + f) + "]") == FamilyHeader(f)
  {
    FamilySection(f);
    HeaderIsClosed(DEFAULTS + f);
    HeaderOfPlain(DEFAULTS + f);
  }

  lemma FamilyLineReads(f: string)
    requires ValidToolName(f) && |f| < 100
    ensures Read(FamilyLine(f)) == FamilyHeader(f)
  {
    var core, nothing := "[" + (DEFAULTS + f) + "]", "";
    FamilyLineFits(f);
    FamilyLineMeans(f);
    assert core + (nothing + nothing) == core;
    ReadCore(core, nothing, nothing, "\n");
  }

  lemma PlainHeaderLine(section: string)
    requires PlainSection(section)
    ensures ParseSectionHeader("[" + section + "]" + "\n") == Section(section)
  {
    var core, nothing := "[" + section + "]", "";
    HeaderIsClosed(section);
    HeaderOfPlain(section);
    assert nothing + core + (nothing + nothing) + "\n" == core + "\n";
    S.MeaningOfCore(nothing, core, nothing, nothing, "\n");
  }

  lemma FamilyLineNames(f: string)
    requires ValidToolName(f)
    ensures S.NamesFamily(FamilyLine(f), f)
  {
    FamilySectionIsPlain(f);
    PlainHeaderLine(DEFAULTS + f);
  }

  lemma SelectionLineFits(current: string)
    requires ValidVersion(current) && |current| < 1000
    ensures FitsScanner(SelectionLine(current)) && Terminated(SelectionLine(current))
    ensures ScanToken(SelectionLine(current)) == S.TightLine(current) + LongComment(current)
  {
    var line := S.TightLine(current) + LongComment(current);
    S.TightIsAscii(current);
    assert S.Ascii(LongComment(current));
    assert S.Ascii(line) && |line| == 65535;
    S.FitsByLength(line);
    S.AsciiToken(line);
    LineTerminated(line, "\n");
    assert WithoutNewline(line + "\n") == line;
  }

  /** A key and a value joined by a bare equals sign. */
  lemma TightAssign(key: string, value: string)
    requires PlainKey(key) && Trimmed(key) && Trimmed(value) && value != ""
    ensures ItemOf(key + "=" + value) == Assign(key, value)
  {
    var line := key + "=" + value;
    assert forall i :: 0 <= i < |key| ==> line[i] == key[i] && key[i] in key;
    assert line[|key|] == '=' && IndexOf(line, '=') == |key|;
    assert line[..|key|] == key && line[|key| + 1..] == value;
    TrimTrimmed(key);
    TrimTrimmed(value);
  }

  lemma TightReads(current: string)
    requires ValidVersion(current)
    ensures ItemOf(S.TightLine(current)) == Assign("version", "\"" + current + "\"")
  {
    var key, value := "version", "\"" + current + "\"";
    assert S.TightLine(current) == key + "=" + value;
    assert PlainKey(key) && Trimmed(key) && Trimmed(value);
    TightAssign(key, value);
  }

  lemma SelectionLineReads(current: string)
    requires ValidVersion(current) && |current| < 1000
    ensures Read(SelectionLine(current)) == Assign("version", "\"" + current + "\"")
  {
    var nothing := "";
    S.TightIsClosed(current);
    SelectionLineFits(current);
    assert nothing + LongComment(current) == LongComment(current);
    ReadCore(S.TightLine(current), nothing, LongComment(current), "\n");
    TightReads(current);
  }

  // -------------------- the built-in registry, with its selection spelled so

  /** The lines of every section fit the scanner. */
  lemma BodiesFit(src: string, b: Registry, prefix: string)
    requires IsBuiltin(src, b)
    ensures forall n, i :: n in Sections(src, prefix) && 0 <= i < |Sections(src, prefix)[n]| ==>
              FitsScanner(Sections(src, prefix)[n][i])
  {
    var lines := SplitOn(src, '\n');
    BuiltinRun(src, b);
    ReadingFits(Start, lines);
    CollectCuts(lines, prefix);
    forall n | n in Sections(src, prefix)
      ensures forall i :: 0 <= i < |Sections(src, prefix)[n]| ==> FitsScanner(Sections(src, prefix)[n][i])
    {
      CutFits(Sections(src, prefix)[n], n, prefix, lines);
    }
  }

  lemma CutFits(body: seq<string>, n: string, prefix: string, lines: seq<string>)
    requires Cut(body, n, prefix, lines) && AllFit(lines)
    ensures forall i :: 0 <= i < |body| ==> FitsScanner(body[i])
  {
    forall i | 0 <= i < |body| ensures FitsScanner(body[i]) {
      var j :| 0 <= j < |lines| && lines[j] == body[i];
    }
  }

  lemma BodyFits(body: seq<string>)
    requires AllUnterminated(body) && forall i :: 0 <= i < |body| ==> FitsScanner(body[i])
    ensures AllFit(SectionLines(body, "\n"))
  {
    var lines := SectionLines(body, "\n");
    forall i | 0 <= i < |lines| ensures FitsScanner(lines[i]) {
      if i == 0 {
        assert lines[0] == "" + "\n";
        FitsWithNewline("");
      } else {
        FitsWithNewline(body[i - 1]);
      }
    }
  }

  lemma {:induction false} AppendFits(sections: map<string, seq<string>>, names: seq<string>)
    requires forall n :: n in sections ==> AllUnterminated(sections[n]) && forall i :: 0 <= i < |sections[n]| ==> FitsScanner(sections[n][i])
    ensures AllFit(AppendSections(sections, names, "\n"))
    decreases |names|
  {
    if names != [] {
      AppendFits(sections, names[..|names| - 1]);
      BodyFits(BodyOf(sections, names[|names| - 1]));
      AllFitAppend(AppendSections(sections, names[..|names| - 1], "\n"), SectionLines(BodyOf(sections, names[|names| - 1]), "\n"));
    }
  }

  ghost function ToolPart(src: string, b: Registry): seq<string> {
    AppendSections(Sections(src, TOOLS), Missing(b.tools, map[]), "\n")
  }

  ghost function FamilyPart(src: string, b: Registry, f: string): seq<string>
    requires f in b.defaults
  {
    AppendSections(Sections(src, DEFAULTS), Missing(b.defaults, map[f := b.defaults[f]]), "\n")
  }

  lemma PartShape(src: string, b: Registry, prefix: string, names: seq<string>)
    requires IsBuiltin(src, b)
    ensures AllTerminated(AppendSections(Sections(src, prefix), names, "\n"))
    ensures AllFit(AppendSections(Sections(src, prefix), names, "\n"))
  {
    BuiltinBodies(src, prefix);
    BodiesFit(src, b, prefix);
    AppendFits(Sections(src, prefix), names);
    SectionsTerminated(Sections(src, prefix), names, "\n");
  }

  lemma RunAllTools(st: State, sections: map<string, seq<string>>, all: map<string, Tool>)
    requires st.Reading? && st.tools == map[]
    requires forall n :: n in all ==> ToolsSection(sections, all, n)
    requires AllFit(AppendSections(sections, Missing(all, st.tools), "\n"))
    ensures var end := Run(st, Items(AppendSections(sections, Missing(all, st.tools), "\n")));
            end.Reading? && end.schema == st.schema && end.defaults == st.defaults && end.tools == all
  {
    var names := Missing(all, st.tools);
    MissingLacks(all, st.tools);
    assert forall i :: 0 <= i < |names| ==> names[i] in sections && ToolsSection(sections, all, names[i]);
    RunTools(st, sections, all, names, "\n");
    AddNone(all, st.tools);
  }

  lemma AddNone<V>(all: map<string, V>, none: map<string, V>)
    requires none == map[]
    ensures all + none == all
  {
  }

  lemma RunToolPart(src: string, b: Registry, st: State)
    requires IsBuiltin(src, b) && st.Reading? && st.tools == map[]
    ensures AllTerminated(ToolPart(src, b))
    ensures var end := Run(st, Items(ToolPart(src, b)));
            end.Reading? && end.schema == st.schema && end.defaults == st.defaults && end.tools == b.tools
  {
    PartShape(src, b, TOOLS, Missing(b.tools, st.tools));
    BuiltinSections(src, b);
    RunAllTools(st, Sections(src, TOOLS), b.tools);
  }

  lemma RunOtherFamilies(st: State, sections: map<string, seq<string>>, all: map<string, string>, f: string)
    requires st.Reading? && st.defaults == map[] && f in all
    requires forall g :: g in all ==> FamiliesSection(sections, all, g)
    requires AllFit(AppendSections(sections, Missing(all, map[f := all[f]]), "\n"))
    ensures var end := Run(st, Items(AppendSections(sections, Missing(all, map[f := all[f]]), "\n")));
            end.Reading? && end.schema == st.schema && end.tools == st.tools && end.defaults == all - {f}
  {
    var names := Missing(all, map[f := all[f]]);
    MissingLacks(all, map[f := all[f]]);
    RunFamilies(st, sections, all, names, "\n");
    OthersPicked(all, f, names);
  }

  lemma RunFamilyPart(src: string, b: Registry, f: string, st: State)
    requires IsBuiltin(src, b) && f in b.defaults && st.Reading? && st.defaults == map[]
    ensures AllTerminated(FamilyPart(src, b, f))
    ensures var end := Run(st, Items(FamilyPart(src, b, f)));
            end.Reading? && end.schema == st.schema && end.tools == st.tools && end.defaults == b.defaults - {f}
  {
    PartShape(src, b, DEFAULTS, Missing(b.defaults, map[f := b.defaults[f]]));
    BuiltinSections(src, b);
    RunOtherFamilies(st, Sections(src, DEFAULTS), b.defaults, f);
  }

  lemma OthersPicked(all: map<string, string>, f: string, names: seq<string>)
    requires f in all && names == Missing(all, map[f := all[f]])
    ensures map[] + Pick(all, names) == all - {f}
  {
    var picked := Pick(all, names);
    forall n ensures n in picked <==> n in all && n != f {
      assert n in names <==> n in (set x | x in all && x !in map[f := all[f]]);
    }
  }

  lemma SelectionSteps(f: string, value: string, current: string, st: State)
    requires st.Reading? && f !in st.defaults && ValidToolName(f) && ParseQuoted(value) == Some(current) && ValidVersion(current)
    ensures Run(st, [FamilyHeader(f)] + [Assign("version", value)]) ==
            Reading(st.schema, st.tools, st.defaults[f := current], InDefault(f))
  {
    RunAppend(st, [FamilyHeader(f)], [Assign("version", value)]);
    RunOne(st, FamilyHeader(f));
    var mid := Step(st, FamilyHeader(f));
    RunOne(mid, Assign("version", value));
    assert st.defaults[f := ""][f := current] == st.defaults[f := current];
  }

  lemma SelectionItems(f: string, current: string)
    requires ValidToolName(f) && |f| < 100 && ValidVersion(current) && |current| < 1000
    ensures Items([FamilyLine(f), SelectionLine(current)]) == [FamilyHeader(f)] + [Assign("version", "\"" + current + "\"")]
  {
    FamilyLineReads(f);
    SelectionLineReads(current);
    ItemsOfTwo(FamilyLine(f), SelectionLine(current), FamilyHeader(f), Assign("version", "\"" + current + "\""));
    assert [FamilyLine(f), SelectionLine(current)] == [FamilyLine(f)] + [SelectionLine(current)];
  }

  lemma RunSelection(f: string, current: string, st: State)
    requires st.Reading? && f !in st.defaults && ValidToolName(f) && |f| < 100 && ValidVersion(current) && |current| < 1000
    ensures Run(st, Items([FamilyLine(f), SelectionLine(current)])) ==
            Reading(st.schema, st.tools, st.defaults[f := current], InDefault(f))
  {
    SelectionItems(f, current);
    S.VersionReadsBack(current);
    SelectionSteps(f, "\"" + current + "\"", current, st);
  }

  /** The built-in registry with the selection of `f` on one long line. */
  ghost function LongText(src: string, b: Registry, f: string): seq<string>
    requires f in b.defaults && |b.defaults[f]| < 1000
  {
    LongFront(src, b, f) + [FamilyLine(f), SelectionLine(b.defaults[f])]
  }

  lemma SchemaFits()
    ensures FitsScanner(M.SchemaLine("\n"))
  {
    SchemaNumber();
    LabelKeysArePlain();
    KeyIsAscii(SCHEMA_KEY);
    SchemaDigits();
    ShortLineFits(AssignCore(SCHEMA_KEY, D.Itoa(MAX_SCHEMA_VERSION)));
  }

  lemma SchemaDigits()
    ensures D.Itoa(MAX_SCHEMA_VERSION) == "2"
  {
  }

  lemma RunSchemaLine()
    ensures Run(Start, Items([M.SchemaLine("\n")])) == Reading(MAX_SCHEMA_VERSION, map[], map[], Top)
    ensures AllTerminated([M.SchemaLine("\n")])
  {
    SchemaFits();
    OneFits(M.SchemaLine("\n"));
    RunGiven(true, "\n");
    SchemaLineTerminated("\n");
  }

  ghost function LongFront(src: string, b: Registry, f: string): seq<string>
    requires f in b.defaults
  {
    [M.SchemaLine("\n")] + ToolPart(src, b) + FamilyPart(src, b, f)
  }

  lemma RunToolFront(src: string, b: Registry)
    requires IsBuiltin(src, b)
    ensures AllTerminated([M.SchemaLine("\n")] + ToolPart(src, b))
    ensures var end := Run(Start, Items([M.SchemaLine("\n")] + ToolPart(src, b)));
            end.Reading? && end.schema == MAX_SCHEMA_VERSION && end.tools == b.tools && end.defaults == map[]
  {
    RunSchemaLine();
    RunToolPart(src, b, Run(Start, Items([M.SchemaLine("\n")])));
    RunLines(Start, [M.SchemaLine("\n")], ToolPart(src, b));
  }

  lemma RunLongFront(src: string, b: Registry, f: string)
    requires IsBuiltin(src, b) && f in b.defaults
    ensures AllTerminated(LongFront(src, b, f))
    ensures var end := Run(Start, Items(LongFront(src, b, f)));
            end.Reading? && end.schema == MAX_SCHEMA_VERSION && end.tools == b.tools && end.defaults == b.defaults - {f}
  {
    RunToolFront(src, b);
    var front := [M.SchemaLine("\n")] + ToolPart(src, b);
    RunFamilyPart(src, b, f, Run(Start, Items(front)));
    RunLines(Start, front, FamilyPart(src, b, f));
  }

  /** The selection after any lines that leave it out. */
  lemma SelectionAfter(front: seq<string>, f: string, current: string, st: State)
    requires AllTerminated(front) && st == Run(Start, Items(front)) && st.Reading? && f !in st.defaults
    requires ValidToolName(f) && |f| < 100 && ValidVersion(current) && |current| < 1000
    ensures Run(Start, Items(front + [FamilyLine(f), SelectionLine(current)])) ==
            Reading(st.schema, st.tools, st.defaults[f := current], InDefault(f))
  {
    RunLines(Start, front, [FamilyLine(f), SelectionLine(current)]);
    RunSelection(f, current, st);
  }

  lemma TerminatedAfter(front: seq<string>, f: string, current: string)
    requires AllTerminated(front) && ValidToolName(f) && |f| < 100 && ValidVersion(current) && |current| < 1000
    ensures AllTerminated(front + [FamilyLine(f), SelectionLine(current)])
  {
    SelectionTerminated(f, current);
  }

  lemma LongTextRuns(src: string, b: Registry, f: string)
    requires IsBuiltin(src, b) && f in b.defaults && ValidToolName(f) && |f| < 100
    requires ValidVersion(b.defaults[f]) && |b.defaults[f]| < 1000
    ensures AllTerminated(LongText(src, b, f))
    ensures Run(Start, Items(LongText(src, b, f))) == Reading(MAX_SCHEMA_VERSION, b.tools, b.defaults, InDefault(f))
  {
    RunLongFront(src, b, f);
    SelectionAfter(LongFront(src, b, f), f, b.defaults[f], Run(Start, Items(LongFront(src, b, f))));
    TerminatedAfter(LongFront(src, b, f), f, b.defaults[f]);
    PutBack(b.defaults, f);
  }

  lemma PutBack(all: map<string, string>, f: string)
    requires f in all
    ensures (all - {f})[f := all[f]] == all
  {
  }

  lemma SelectionTerminated(f: string, current: string)
    requires ValidToolName(f) && |f| < 100 && ValidVersion(current) && |current| < 1000
    ensures AllTerminated([FamilyLine(f), SelectionLine(current)])
  {
    FamilyLineFits(f);
    SelectionLineFits(current);
  }

  lemma LongTextParses(src: string, b: Registry, f: string)
    requires IsBuiltin(src, b) && f in b.defaults && ValidToolName(f) && |f| < 100
    requires ValidVersion(b.defaults[f]) && |b.defaults[f]| < 1000
    ensures ParseTOML(Concat(LongText(src, b, f))) == Ok(b)
    ensures SplitAfter(Concat(LongText(src, b, f))) == LongText(src, b, f) + [""]
  {
    LongTextRuns(src, b, f);
    RunOfConcat(LongText(src, b, f));
    TextLines(LongText(src, b, f));
    FinishSame(src, b, Run(Start, Items(LongText(src, b, f))));
  }

  lemma FinishSame(src: string, b: Registry, st: State)
    requires IsBuiltin(src, b) && st.Reading? && st.schema == b.schema && st.tools == b.tools && st.defaults == b.defaults
    ensures Finish(st) == Ok(b)
  {
  }

  /** The editor's flags after the two last lines: named, and too long once rewritten. */
  lemma LongTextOverflows(front: seq<string>, f: string, current: string, version: string, newline: string)
    requires ValidToolName(f) && |f| < 100 && ValidVersion(current) && ValidVersion(version) && |current| == |version| < 1000
    requires IsNewline(newline)
    ensures var scan := S.ScanOf(front + [FamilyLine(f), SelectionLine(current)] + [""], f, version, newline);
            scan.named && scan.overflow
  {
    var a, c := FamilyLine(f), SelectionLine(current);
    var lines := front + [a, c] + [""];
    assert lines[..|lines| - 1] == front + [a, c];
    assert (front + [a, c])[..|front| + 1] == front + [a] && (front + [a])[..|front|] == front;
    FamilyLineReads(f);
    FamilyLineNames(f);
    LongReplaced(S.ScanOf(front + [a], f, version, newline), f, current, version, newline);
  }

  lemma LongReplaced(scan: S.Scan, f: string, current: string, version: string, newline: string)
    requires ValidVersion(current) && ValidVersion(version) && |current| == |version| < 1000 && IsNewline(newline)
    requires scan.inFamily
    ensures var c := SelectionLine(current);
            S.Replaces(scan, c, f) && !FitsScanner(S.NewLine(ScanToken(c), version, newline))
  {
    var c := SelectionLine(current);
    SelectionLineFits(current);
    SelectionLineReads(current);
    ReadHeader(c);
    S.VersionLineIsAssign(c);
    assert S.Ascii(LongComment(current));
    S.LongCommentOverflows(current, version, LongComment(current));
    var token := S.TightLine(current) + LongComment(current);
    S.TightIsAscii(current);
    S.AsciiToken(token);
  }

  /** An accepted registry on which the switch to a configured version is refused, for the
      length of the line it would write. */
  lemma LongSelectionRefuses(src: string, b: Registry, f: string, version: string, validate: Registry -> bool, r: S.Outcome)
    requires IsBuiltin(src, b) && f in b.defaults && ValidToolName(f) && |f| < 100
    requires ValidVersion(b.defaults[f]) && |b.defaults[f]| == |version| < 1000
    requires version in A.VersionsOf(b, f) && version != b.defaults[f] && ValidVersion(version)
    ensures var data := Concat(LongText(src, b, f));
            && S.Ready(data, f, version)
            && S.ScanText(data, f, version).named && S.ScanText(data, f, version).overflow
            && (S.Switched(data, b, f, version, validate, r) ==> r == S.Refused(LineTooLong))
  {
    LongTextParses(src, b, f);
    LongTextOverflows(LongFront(src, b, f), f, b.defaults[f], version, S.NewlineOf(Concat(LongText(src, b, f))));
  }
}
