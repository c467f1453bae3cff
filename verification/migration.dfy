/**
 * internal/registry/file.go: the upgrade of a version 1 registry, which renames the stock
 * Node profiles to versioned ones, labels them, and appends what the built-in registry adds.
 */
module Migration {
  import opened Wrappers
  import opened Text
  import opened Toml
  import opened Decimal
  import opened Sorting
  import opened Registry
  import opened Builtin
  import opened PrintedLines
  import opened Upgrade
  import S = SwitchDefault

  /** Which profile becomes which versioned profile, and the labels it gets. */
  datatype Move = Move(oldName: string, newName: string, family: string, version: string, alias: string)

  const V1_NODE_MIGRATIONS: seq<Move> := [
    Move("node", "node24", "node", "24", "node"),
    Move("npm", "npm24", "node", "24", "npm"),
    Move("npx", "npx24", "node", "24", "npx"),
    Move("node22", "node22", "node", "22", "node"),
    Move("npm22", "npm22", "node", "22", "npm"),
    Move("npx22", "npx22", "node", "22", "npx")]

  predicate MoveOk(m: Move) {
    && ValidToolName(m.newName) && !ReservedToolName(m.newName)
    && ValidToolName(m.family) && ValidVersion(m.version) && ValidToolName(m.alias)
    && Lower(m.version) == m.version
  }

  /** What the migration relies on about its table. */
  predicate TableOk(moves: seq<Move>) {
    && (forall i :: 0 <= i < |moves| ==> MoveOk(moves[i]))
    && (forall i, j :: 0 <= i < j < |moves| ==> Apart(moves[i], moves[j]))
  }

  predicate Apart(m: Move, k: Move) {
    m.oldName != k.oldName && m.newName != k.newName && m.oldName != k.newName && k.oldName != m.newName
  }

  lemma NamedMove(m: Move)
    requires ValidToolName(m.newName) && ValidToolName(m.family) && ValidToolName(m.version) && ValidToolName(m.alias)
    requires !ReservedToolName(m.newName)
    ensures MoveOk(m)
  {
    NamesAreVersions(m.version);
  }

  lemma TheMovesAreOk(i: nat)
    requires i < 6
    ensures MoveOk(V1_NODE_MIGRATIONS[i])
  {
    NamedMove(V1_NODE_MIGRATIONS[i]);
  }

  lemma TheMovesAreApart(i: nat, j: nat)
    requires i < j < 6
    ensures Apart(V1_NODE_MIGRATIONS[i], V1_NODE_MIGRATIONS[j])
  {
  }

  lemma TheTableIsOk()
    ensures TableOk(V1_NODE_MIGRATIONS)
  {
    forall i | 0 <= i < 6 ensures MoveOk(V1_NODE_MIGRATIONS[i]) { TheMovesAreOk(i); }
    forall i, j | 0 <= i < j < 6 ensures Apart(V1_NODE_MIGRATIONS[i], V1_NODE_MIGRATIONS[j]) { TheMovesAreApart(i, j); }
  }

  type Moves = map<string, Move>

  /** Where a profile goes. */
  function NewName(moves: Moves, n: string): string {
    if n in moves then moves[n].newName else n
  }

  // ---------------------------------------------------------------- the edit, line by line

  const FAMILY_KEY := "default_family"
  const VERSION_KEY := "default_version"
  const ALIAS_KEY := "default_alias"
  const SCHEMA_KEY := "schema_version"

  predicate IsLabelKey(key: string) {
    key == FAMILY_KEY || key == VERSION_KEY || key == ALIAS_KEY
  }

  function Quoted(s: string): string {
    "\"" + s + "\""
  }

  function SchemaItem(): Item {
    Assign(SCHEMA_KEY, Itoa(MAX_SCHEMA_VERSION))
  }

  function LabelItems(m: Move): seq<Item> {
    [Assign(FAMILY_KEY, Quoted(m.family)), Assign(VERSION_KEY, Quoted(m.version)), Assign(ALIAS_KEY, Quoted(m.alias))]
  }

  /** What the editor makes of a line that says `item`. */
  function EditItem(moves: Moves, item: Item): seq<Item> {
    if item.Assign? && item.key == SCHEMA_KEY then [SchemaItem()]
    else if item.ToolHeader? && item.name in moves then [ToolHeader(moves[item.name].newName)] + LabelItems(moves[item.name])
    else [item]
  }

  function EditItems(moves: Moves, items: seq<Item>): seq<Item> {
    if items == [] then [] else EditItems(moves, items[..|items| - 1]) + EditItem(moves, items[|items| - 1])
  }

  predicate HasSchema(items: seq<Item>) {
    exists i :: 0 <= i < |items| && items[i].Assign? && items[i].key == SCHEMA_KEY
  }

  /** The label keys written in the section of tool `n`. */
  function LabelKeys(items: seq<Item>, n: string): set<string> {
    if items == [] then {}
    else
      var front, item := items[..|items| - 1], items[|items| - 1];
      var st := Run(Start, front);
      LabelKeys(front, n) +
      if item.Assign? && IsLabelKey(item.key) && st.Reading? && st.at == InTool(n) then {item.key} else {}
  }

  /** A migrated profile: renamed, with the labels of its move except where its own section
      goes on to set the key. */
  function Moved(moves: Moves, n: string, t: Tool, keys: set<string>): Tool {
    if n !in moves then t
    else Relabelled(t, moves[n], keys)
  }

  function Relabelled(t: Tool, m: Move, keys: set<string>): Tool {
    t.(name := m.newName,
       defaultFamily := if FAMILY_KEY in keys then t.defaultFamily else m.family,
       defaultVersion := if VERSION_KEY in keys then t.defaultVersion else m.version,
       defaultAlias := if ALIAS_KEY in keys then t.defaultAlias else m.alias)
  }

  function LabelOf(key: string): set<string> {
    if IsLabelKey(key) then {key} else {}
  }

  lemma QuotedCommutes(t: Tool, m: Move, keys: set<string>, key: string, v: string)
    requires IsQuotedKey(key)
    ensures SetQuoted(Relabelled(t, m, keys), key, v) == Relabelled(SetQuoted(t, key, v), m, keys + LabelOf(key))
  {
    if IsLabelKey(key) {
      LabelCommutes(t, m, keys, key, v);
    } else {
      assert keys + LabelOf(key) == keys;
    }
  }

  lemma LabelCommutes(t: Tool, m: Move, keys: set<string>, key: string, v: string)
    requires IsLabelKey(key)
    ensures SetQuoted(Relabelled(t, m, keys), key, v) == Relabelled(SetQuoted(t, key, v), m, keys + {key})
  {
  }

  lemma ArrayCommutes(t: Tool, m: Move, keys: set<string>, key: string, v: seq<string>)
    requires IsArrayKey(key)
    ensures SetArray(Relabelled(t, m, keys), key, v) == Relabelled(SetArray(t, key, v), m, keys + LabelOf(key))
  {
    assert keys + LabelOf(key) == keys;
  }

  function RelabelResult(r: Result<Tool, Reason>, m: Move, keys: set<string>): Result<Tool, Reason> {
    match r case Err(reason) => Err(reason) case Ok(u) => Ok(Relabelled(u, m, keys))
  }

  /** Keys mean the same to a profile and to its renamed copy. */
  lemma KeyCommutes(t: Tool, m: Move, keys: set<string>, key: string, value: string)
    ensures ApplyKey(Relabelled(t, m, keys), key, value) == RelabelResult(ApplyKey(t, key, value), m, keys + LabelOf(key))
  {
    if key == "path_last" {
      assert keys + LabelOf(key) == keys;
    } else if IsQuotedKey(key) {
      var v := ParseQuoted(value);
      if v.Some? { QuotedCommutes(t, m, keys, key, v.value); }
    } else if IsArrayKey(key) {
      var v := ParseStringArray(value);
      if v.Some? { ArrayCommutes(t, m, keys, key, v.value); }
    }
  }

  lemma QuotedReads(s: string)
    requires ValidVersion(s)
    ensures ParseQuoted(Quoted(s)) == Some(s) && ClosedValue(Quoted(s)) && Unterminated(Quoted(s))
  {
    S.VersionReadsBack(s);
  }

  lemma NamesAreVersions(s: string)
    requires ValidToolName(s)
    ensures ValidVersion(s) && Lower(s) == s
  {
    LowerFixed(s);
  }

  lemma LabelsApply(m: Move)
    requires MoveOk(m)
    ensures var t0 := FreshTool(m.newName);
            var t1 := t0.(defaultFamily := m.family);
            var t2 := t1.(defaultVersion := m.version);
            && ApplyKey(t0, FAMILY_KEY, Quoted(m.family)) == Ok(t1)
            && ApplyKey(t1, VERSION_KEY, Quoted(m.version)) == Ok(t2)
            && ApplyKey(t2, ALIAS_KEY, Quoted(m.alias)) == Ok(Relabelled(FreshTool(m.oldName), m, {}))
  {
    NamesAreVersions(m.family);
    NamesAreVersions(m.alias);
    QuotedReads(m.family);
    QuotedReads(m.version);
    QuotedReads(m.alias);
  }

  // ---------------------------------------------------------------- the two parsers side by side

  /** The moves at work: sound, and never giving two profiles of `names` one name. */
  predicate MovesOk(moves: Moves, names: set<string>) {
    && (forall n :: n in moves ==> MoveOk(moves[n]) && moves[n].oldName == n)
    && (forall n, k :: n in names && k in names && NewName(moves, n) == NewName(moves, k) ==> n == k)
  }

  function MovedCursor(moves: Moves, at: Cursor): Cursor {
    if at.InTool? then InTool(NewName(moves, at.name)) else at
  }

  /** Every entry of `image` stands under its new name, and nothing else does. */
  ghost predicate Renamed<V>(moves: Moves, image: map<string, V>, moved: map<string, V>) {
    && (forall n :: n in image ==> NewName(moves, n) in moved && moved[NewName(moves, n)] == image[n])
    && (forall k :: k in moved ==> exists n :: n in image && NewName(moves, n) == k)
  }

  lemma RenamedUpdate<V>(moves: Moves, names: set<string>, image: map<string, V>, moved: map<string, V>, n: string, v: V)
    requires MovesOk(moves, names) && image.Keys <= names && n in names && Renamed(moves, image, moved)
    ensures Renamed(moves, image[n := v], moved[NewName(moves, n) := v])
    ensures n !in image ==> NewName(moves, n) !in moved
  {
    var k := NewName(moves, n);
    var image1, moved1 := image[n := v], moved[k := v];
    forall m | m in image1 ensures NewName(moves, m) in moved1 && moved1[NewName(moves, m)] == image1[m] {
      if m != n { assert NewName(moves, m) != k; }
    }
    forall x | x in moved1 ensures exists m :: m in image1 && NewName(moves, m) == x {
      if x == k { assert n in image1; } else {
        var m :| m in image && NewName(moves, m) == x;
        assert m in image1;
      }
    }
  }

  /** The old tools, moved. */
  function Images(moves: Moves, items: seq<Item>, tools: map<string, Tool>): map<string, Tool> {
    map n | n in tools :: Moved(moves, n, tools[n], LabelKeys(items, n))
  }

  /** The tools of the new text are those of the old text, moved. */
  ghost predicate ToolsMoved(moves: Moves, items: seq<Item>, tools: map<string, Tool>, moved: map<string, Tool>) {
    Renamed(moves, Images(moves, items, tools), moved)
  }

  ghost predicate NoStrayLabels(items: seq<Item>, tools: map<string, Tool>) {
    forall n :: n !in tools ==> LabelKeys(items, n) == {}
  }

  /** The parser on the old items, and on the edited ones. */
  ghost predicate Mirrors(moves: Moves, items: seq<Item>, given: bool, p: State, q: State) {
    && p.Reading? && q.Reading?
    && q.defaults == p.defaults && q.at == MovedCursor(moves, p.at)
    && (p.at.InTool? ==> p.at.name in p.tools)
    && ToolsMoved(moves, items, p.tools, q.tools)
    && (given || HasSchema(items) ==> q.schema == MAX_SCHEMA_VERSION)
  }

  lemma LabelKeysStep(items: seq<Item>, item: Item, n: string)
    ensures LabelKeys(items + [item], n) ==
            LabelKeys(items, n) +
            if item.Assign? && IsLabelKey(item.key) && Run(Start, items).Reading? && Run(Start, items).at == InTool(n)
            then {item.key} else {}
  {
    assert (items + [item])[..|items|] == items;
  }

  lemma HasSchemaStep(items: seq<Item>, item: Item)
    ensures HasSchema(items + [item]) <==> HasSchema(items) || (item.Assign? && item.key == SCHEMA_KEY)
  {
    var all := items + [item];
    if HasSchema(items) {
      var i :| 0 <= i < |items| && items[i].Assign? && items[i].key == SCHEMA_KEY;
      assert all[i] == items[i];
    }
    assert all[|items|] == item;
  }

  /** A line other than a key of a tool leaves every section's labels as they are. */
  lemma SameLabels(items: seq<Item>, item: Item, p: State)
    requires p == Run(Start, items) && p.Reading? && (!item.Assign? || !p.at.InTool?)
    ensures forall n :: LabelKeys(items + [item], n) == LabelKeys(items, n)
  {
    forall n ensures LabelKeys(items + [item], n) == LabelKeys(items, n) {
      LabelKeysStep(items, item, n);
    }
  }

  lemma ToolsMovedSame(moves: Moves, items: seq<Item>, more: seq<Item>, tools: map<string, Tool>, moved: map<string, Tool>)
    requires ToolsMoved(moves, items, tools, moved) && forall n :: LabelKeys(more, n) == LabelKeys(items, n)
    ensures ToolsMoved(moves, more, tools, moved)
  {
    assert Images(moves, more, tools) == Images(moves, items, tools);
  }

  // -------------------- one line at a time

  lemma MirrorElsewhere(moves: Moves, items: seq<Item>, given: bool, p: State, q: State, item: Item)
    requires p == Run(Start, items) && Mirrors(moves, items, given, p, q) && Step(p, item).Reading?
    requires item.Blank? || item.FamilyHeader? || (item.Assign? && p.at.InDefault?)
    ensures EditItem(moves, item) == [item] || (item.Assign? && item.key == SCHEMA_KEY)
    ensures item.Assign? ==> item.key != SCHEMA_KEY
    ensures Mirrors(moves, items + [item], given, Step(p, item), Step(q, item))
  {
    SameLabels(items, item, p);
    HasSchemaStep(items, item);
    ToolsMovedSame(moves, items, items + [item], p.tools, q.tools);
  }

  lemma SchemaReads(st: State)
    requires st.Reading? && st.at.Top?
    ensures Step(st, SchemaItem()) == st.(schema := MAX_SCHEMA_VERSION)
  {
    ItoaRoundTrip(MAX_SCHEMA_VERSION);
    assert Itoa(MAX_SCHEMA_VERSION)[0] != '+';
  }

  lemma MirrorSchema(moves: Moves, items: seq<Item>, given: bool, p: State, q: State, item: Item)
    requires p == Run(Start, items) && Mirrors(moves, items, given, p, q) && Step(p, item).Reading?
    requires item.Assign? && p.at.Top?
    ensures EditItem(moves, item) == [SchemaItem()]
    ensures Mirrors(moves, items + [item], given, Step(p, item), Step(q, SchemaItem()))
  {
    SameLabels(items, item, p);
    HasSchemaStep(items, item);
    ToolsMovedSame(moves, items, items + [item], p.tools, q.tools);
    SchemaReads(q);
  }

  lemma MovedKey(moves: Moves, n: string, t: Tool, keys: set<string>, key: string, value: string, u: Tool)
    requires ApplyKey(t, key, value) == Ok(u)
    ensures ApplyKey(Moved(moves, n, t, keys), key, value) == Ok(Moved(moves, n, u, keys + LabelOf(key)))
  {
    if n in moves { KeyCommutes(t, moves[n], keys, key, value); }
  }

  /** One tool changes, and with it its moved copy. */
  lemma ToolChanged(moves: Moves, names: set<string>, items: seq<Item>, more: seq<Item>, tools: map<string, Tool>,
                    n: string, u: Tool, moved: map<string, Tool>)
    requires MovesOk(moves, names) && tools.Keys <= names && n in names && ToolsMoved(moves, items, tools, moved)
    requires forall m :: m in tools && m != n ==> LabelKeys(more, m) == LabelKeys(items, m)
    ensures ToolsMoved(moves, more, tools[n := u], moved[NewName(moves, n) := Moved(moves, n, u, LabelKeys(more, n))])
    ensures n !in tools ==> NewName(moves, n) !in moved
  {
    RenamedUpdate(moves, names, Images(moves, items, tools), moved, n, Moved(moves, n, u, LabelKeys(more, n)));
    ImagesStep(moves, items, more, tools, n, u);
  }

  lemma ImagesStep(moves: Moves, items: seq<Item>, more: seq<Item>, tools: map<string, Tool>, n: string, u: Tool)
    requires forall m :: m in tools && m != n ==> LabelKeys(more, m) == LabelKeys(items, m)
    ensures Images(moves, more, tools[n := u]) == Images(moves, items, tools)[n := Moved(moves, n, u, LabelKeys(more, n))]
  {
    var a := Images(moves, more, tools[n := u]);
    var b := Images(moves, items, tools)[n := Moved(moves, n, u, LabelKeys(more, n))];
    assert a.Keys == b.Keys;
    forall m | m in a ensures a[m] == b[m] {
      if m != n { assert tools[n := u][m] == tools[m]; }
    }
  }

  /** A key of a tool section, in the old text and in the new one. */
  lemma KeyMoves(moves: Moves, items: seq<Item>, p: State, q: State, item: Item) returns (u: Tool)
    requires p == Run(Start, items) && p.Reading? && q.Reading? && Step(p, item).Reading? && item.Assign?
    requires p.at.InTool? && q.at == MovedCursor(moves, p.at) && p.at.name in p.tools
    requires ToolsMoved(moves, items, p.tools, q.tools)
    ensures var n := p.at.name;
            && Step(p, item) == p.(tools := p.tools[n := u])
            && Step(q, item) == q.(tools := q.tools[NewName(moves, n) := Moved(moves, n, u, LabelKeys(items + [item], n))])
    ensures item.key != SCHEMA_KEY
  {
    var n := p.at.name;
    KeyStep(p, n, item);
    u := ApplyKey(p.tools[n], item.key, item.value).value;
    KeyIsNoSchema(p.tools[n], item.key, item.value);
    MovedOne(moves, items, p.tools, q.tools, n);
    MovedKeyStep(moves, q, n, p.tools[n], LabelKeys(items, n), item, u);
    LabelKeysStep(items, item, n);
  }

  lemma KeyIsNoSchema(t: Tool, key: string, value: string)
    requires ApplyKey(t, key, value).Ok?
    ensures key != SCHEMA_KEY
  {
  }

  lemma MovedOne(moves: Moves, items: seq<Item>, tools: map<string, Tool>, moved: map<string, Tool>, n: string)
    requires ToolsMoved(moves, items, tools, moved) && n in tools
    ensures NewName(moves, n) in moved && moved[NewName(moves, n)] == Moved(moves, n, tools[n], LabelKeys(items, n))
  {
    assert n in Images(moves, items, tools);
  }

  lemma MovedKeyStep(moves: Moves, q: State, n: string, t: Tool, keys: set<string>, item: Item, u: Tool)
    requires q.Reading? && q.at == InTool(NewName(moves, n)) && NewName(moves, n) in q.tools && item.Assign?
    requires q.tools[NewName(moves, n)] == Moved(moves, n, t, keys) && ApplyKey(t, item.key, item.value) == Ok(u)
    ensures Step(q, item) == q.(tools := q.tools[NewName(moves, n) := Moved(moves, n, u, keys + LabelOf(item.key))])
  {
    MovedKey(moves, n, t, keys, item.key, item.value, u);
    KeyStep(q, NewName(moves, n), item);
  }

  /** A key of a tool section changes the tool and its moved copy alike. */
  lemma MirrorKey(moves: Moves, names: set<string>, items: seq<Item>, given: bool, p: State, q: State, item: Item)
    requires MovesOk(moves, names) && p.Reading? && p.tools.Keys <= names
    requires p == Run(Start, items) && Mirrors(moves, items, given, p, q) && Step(p, item).Reading?
    requires item.Assign? && p.at.InTool?
    ensures EditItem(moves, item) == [item]
    ensures Mirrors(moves, items + [item], given, Step(p, item), Step(q, item))
  {
    var n := p.at.name;
    HasSchemaStep(items, item);
    var u := KeyMoves(moves, items, p, q, item);
    forall m | m != n ensures LabelKeys(items + [item], m) == LabelKeys(items, m) { LabelKeysStep(items, item, m); }
    ToolChanged(moves, names, items, items + [item], p.tools, n, u, q.tools);
  }

  lemma OneKey(st: State, k: string, item: Item, t: Tool, u: Tool)
    requires st.Reading? && st.at == InTool(k) && k in st.tools && st.tools[k] == t && item.Assign?
    requires ApplyKey(t, item.key, item.value) == Ok(u)
    ensures Run(st, [item]) == st.(tools := st.tools[k := u])
  {
    RunOne(st, item);
    KeyStep(st, k, item);
  }

  lemma LabelRuns(st: State, m: Move)
    requires st.Reading? && MoveOk(m) && st.at == InTool(m.newName) && m.newName in st.tools
    ensures var k, t := m.newName, FreshTool(m.newName);
            var t1 := t.(defaultFamily := m.family);
            var t2 := t1.(defaultVersion := m.version);
            && (st.tools[k] == t ==> Run(st, [LabelItems(m)[0]]) == st.(tools := st.tools[k := t1]))
            && (st.tools[k] == t1 ==> Run(st, [LabelItems(m)[1]]) == st.(tools := st.tools[k := t2]))
            && (st.tools[k] == t2 ==>
                  Run(st, [LabelItems(m)[2]]) == st.(tools := st.tools[k := Relabelled(FreshTool(m.oldName), m, {})]))
  {
    var k, t := m.newName, FreshTool(m.newName);
    var t1 := t.(defaultFamily := m.family);
    var t2 := t1.(defaultVersion := m.version);
    LabelsApply(m);
    if st.tools[k] == t { OneKey(st, k, LabelItems(m)[0], t, t1); }
    if st.tools[k] == t1 { OneKey(st, k, LabelItems(m)[1], t1, t2); }
    if st.tools[k] == t2 { OneKey(st, k, LabelItems(m)[2], t2, Relabelled(FreshTool(m.oldName), m, {})); }
  }

  lemma RunFour(st: State, a: Item, b: Item, c: Item, d: Item)
    ensures Run(st, [a] + [b, c, d]) == Run(Run(Run(Step(st, a), [b]), [c]), [d])
  {
    assert [a] + [b, c, d] == [a] + ([b] + ([c] + [d]));
    RunAppend(st, [a], [b] + ([c] + [d]));
    RunOne(st, a);
    RunAppend(Step(st, a), [b], [c] + [d]);
    RunAppend(Run(Step(st, a), [b]), [c], [d]);
  }

  /** The rewritten header and its labels open the moved copy. */
  lemma LabelsRun(q: State, m: Move)
    requires q.Reading? && MoveOk(m) && m.newName !in q.tools
    ensures Run(q, [ToolHeader(m.newName)] + LabelItems(m)) ==
            Reading(q.schema, q.tools[m.newName := Relabelled(FreshTool(m.oldName), m, {})], q.defaults, InTool(m.newName))
  {
    var k := m.newName;
    var labels := LabelItems(m);
    RunFour(q, ToolHeader(k), labels[0], labels[1], labels[2]);
    assert labels == [labels[0], labels[1], labels[2]];
    var q1 := Step(q, ToolHeader(k));
    LabelRuns(q1, m);
    var q2 := Run(q1, [labels[0]]);
    LabelRuns(q2, m);
    LabelRuns(Run(q2, [labels[1]]), m);
  }

  lemma MirrorHeader(moves: Moves, names: set<string>, items: seq<Item>, given: bool, p: State, q: State, n: string)
    requires MovesOk(moves, names) && p.Reading? && p.tools.Keys <= names && n in names
    requires p == Run(Start, items) && Mirrors(moves, items, given, p, q) && Step(p, ToolHeader(n)).Reading?
    requires NoStrayLabels(items, p.tools)
    ensures Mirrors(moves, items + [ToolHeader(n)], given, Step(p, ToolHeader(n)), Run(q, EditItem(moves, ToolHeader(n))))
  {
    var item := ToolHeader(n);
    HasSchemaStep(items, item);
    SameLabels(items, item, p);
    assert LabelKeys(items + [item], n) == {};
    ToolChanged(moves, names, items, items + [item], p.tools, n, FreshTool(n), q.tools);
    HeaderRuns(moves, names, q, n);
    assert Step(p, item) == Reading(p.schema, p.tools[n := FreshTool(n)], p.defaults, InTool(n));
  }

  lemma HeaderRuns(moves: Moves, names: set<string>, q: State, n: string)
    requires MovesOk(moves, names) && q.Reading? && NewName(moves, n) !in q.tools
    requires ValidToolName(n) && !ReservedToolName(n)
    ensures Run(q, EditItem(moves, ToolHeader(n))) ==
            Reading(q.schema, q.tools[NewName(moves, n) := Moved(moves, n, FreshTool(n), {})], q.defaults,
                    InTool(NewName(moves, n)))
  {
    if n in moves {
      LabelsRun(q, moves[n]);
    } else {
      RunOne(q, ToolHeader(n));
    }
  }

  lemma StrayStep(items: seq<Item>, item: Item, p: State)
    requires p == Run(Start, items) && p.Reading? && NoStrayLabels(items, p.tools) && Step(p, item).Reading?
    requires p.at.InTool? ==> p.at.name in p.tools
    ensures NoStrayLabels(items + [item], Step(p, item).tools)
    ensures p.tools.Keys <= Step(p, item).tools.Keys
  {
    forall n | n !in Step(p, item).tools ensures LabelKeys(items + [item], n) == {} && n !in p.tools {
      LabelKeysStep(items, item, n);
    }
  }

  // -------------------- all lines

  lemma MirrorStep(moves: Moves, names: set<string>, items: seq<Item>, given: bool, p: State, q: State, item: Item)
    requires MovesOk(moves, names) && Step(p, item).Reading? && Step(p, item).tools.Keys <= names
    requires p == Run(Start, items) && Mirrors(moves, items, given, p, q) && NoStrayLabels(items, p.tools)
    ensures Mirrors(moves, items + [item], given, Step(p, item), Run(q, EditItem(moves, item)))
    ensures NoStrayLabels(items + [item], Step(p, item).tools)
  {
    StrayStep(items, item, p);
    if item.ToolHeader? {
      assert item.name in Step(p, item).tools;
      MirrorHeader(moves, names, items, given, p, q, item.name);
    } else if item.Assign? && p.at.Top? {
      MirrorSchema(moves, items, given, p, q, item);
      RunOne(q, SchemaItem());
    } else if item.Assign? && p.at.InTool? {
      MirrorKey(moves, names, items, given, p, q, item);
      RunOne(q, item);
    } else {
      MirrorElsewhere(moves, items, given, p, q, item);
      RunOne(q, item);
    }
  }

  function Begin(given: bool): State {
    if given then Start.(schema := MAX_SCHEMA_VERSION) else Start
  }

  /** Reading the edited items gives the moved registry, at every line. */
  lemma {:induction false} MirrorAll(moves: Moves, names: set<string>, items: seq<Item>, given: bool)
    requires MovesOk(moves, names) && Run(Start, items).Reading? && Run(Start, items).tools.Keys <= names
    ensures Mirrors(moves, items, given, Run(Start, items), Run(Begin(given), EditItems(moves, items)))
    ensures NoStrayLabels(items, Run(Start, items).tools)
    decreases |items|
  {
    if items == [] {
      assert Images(moves, items, map[]) == map[];
    } else {
      var k := |items| - 1;
      var front, item := items[..k], items[k];
      RunPrefix(Start, items, k);
      assert items[..k + 1] == items && items == front + [item];
      var p := Run(Start, front);
      StepKeepsTools(p, item);
      MirrorAll(moves, names, front, given);
      RunAppend(Begin(given), EditItems(moves, front), EditItem(moves, item));
      MirrorStep(moves, names, front, given, p, Run(Begin(given), EditItems(moves, front)), item);
    }
  }

  lemma StepKeepsTools(p: State, item: Item)
    requires p.Reading? && Step(p, item).Reading?
    ensures p.tools.Keys <= Step(p, item).tools.Keys
  {
  }

  // ---------------------------------------------------------------- the edit on text

  function AssignCore(key: string, value: string): string {
    key + " = " + value
  }

  function SchemaLine(newline: string): string {
    AssignCore(SCHEMA_KEY, Itoa(MAX_SCHEMA_VERSION)) + newline
  }

  /** The trailing comment of a header line, moved up to one blank after the new header. */
  function KeptComment(line: string): string {
    var code := StripComment(line);
    if |code| < |line| then " " + Trim(line[|code|..]) else ""
  }

  function HeaderCore(name: string): string {
    "[" + (TOOLS + name) + "]"
  }

  function MovedLines(m: Move, line: string, newline: string): seq<string> {
    [HeaderCore(m.newName) + KeptComment(line) + newline,
     AssignCore(FAMILY_KEY, Quoted(m.family)) + newline,
     AssignCore(VERSION_KEY, Quoted(m.version)) + newline,
     AssignCore(ALIAS_KEY, Quoted(m.alias)) + newline]
  }

  function HeaderTool(line: string): Option<string> {
    match ParseSectionHeader(line) case Section(section) => ToolOfSection(section) case _ => None
  }

  predicate IsSchemaLine(line: string) {
    SCHEMA_KEY <= Trim(line)
  }

  function EditLine(moves: Moves, newline: string, raw: string): seq<string> {
    var line := ScanToken(raw);
    if IsSchemaLine(line) then [SchemaLine(newline)]
    else
      match HeaderTool(line)
      case Some(name) => if name in moves then MovedLines(moves[name], line, newline) else [raw]
      case None => [raw]
  }

  function EditLines(moves: Moves, newline: string, lines: seq<string>): seq<string> {
    if lines == [] then []
    else EditLines(moves, newline, lines[..|lines| - 1]) + EditLine(moves, newline, lines[|lines| - 1])
  }

  // -------------------- what the written lines say

  /** A closed core, perhaps with a comment after it, says the core. */
  lemma ReadCore(core: string, blanks: string, comment: string, newline: string)
    requires ClosedValue(core) && AllSpace(blanks) && (comment == "" || comment[0] == '#') && IsNewline(newline)
    requires FitsScanner(core + (blanks + comment) + newline)
    ensures Read(core + (blanks + comment) + newline) == ItemOf(core)
  {
    MeaningOfToken(core + (blanks + comment) + newline);
    S.MeaningOfCore("", core, blanks, comment, newline);
    assert "" + core == core;
  }

  lemma ReadAssignCore(key: string, value: string, newline: string)
    requires PlainKey(key) && ClosedValue(value) && IsNewline(newline) && FitsScanner(AssignCore(key, value) + newline)
    ensures Read(AssignCore(key, value) + newline) == Assign(key, value)
  {
    var core := AssignCore(key, value);
    ClosedAssign(key, value);
    var nothing := "";
    assert core + (nothing + nothing) == core;
    ReadCore(core, nothing, nothing, newline);
    S.AssignOfRendered(key, value);
  }

  lemma ToolSection(name: string)
    requires ValidToolName(name)
    ensures PlainSection(TOOLS + name) && HeaderItem(TOOLS + name) == ToolHeader(name)
  {
    var section := TOOLS + name;
    assert forall c :: c in name ==> NameChar(c);
    assert section[|section| - 1] == name[|name| - 1] && name[|name| - 1] in name;
    assert name[0] in name;
    assert section[|TOOLS|..] == name;
    TrimTrimmed(name);
    NamesAreVersions(name);
  }

  lemma HeaderCoreReads(name: string)
    requires ValidToolName(name)
    ensures ClosedValue(HeaderCore(name)) && ItemOf(HeaderCore(name)) == ToolHeader(name)
  {
    ToolSection(name);
    HeaderIsClosed(TOOLS + name);
    HeaderOfPlain(TOOLS + name);
  }

  lemma KeptCommentShape(line: string) returns (blanks: string, comment: string)
    ensures KeptComment(line) == blanks + comment && AllSpace(blanks) && (comment == "" || comment[0] == '#')
    ensures Unterminated(line) ==> Unterminated(KeptComment(line))
  {
    blanks, comment := "", "";
    if |StripComment(line)| < |line| {
      CommentTail(line);
      blanks, comment := " ", Trim(line[|StripComment(line)|..]);
    }
  }

  /** What is cut off a line with a comment is that comment, less the white space after it. */
  lemma CommentTail(line: string)
    requires |StripComment(line)| < |line|
    ensures var comment := Trim(line[|StripComment(line)|..]);
            comment != "" && comment[0] == '#' && (Unterminated(line) ==> Unterminated(comment))
  {
    S.CommentStops(Plain, line);
    var at := |StripComment(line)|;
    var tail := line[at..];
    assert tail[0] == '#';
    var i, j := TrimSplit(tail);
    FirstOfSpace(tail, i);
    LastNonSpace(tail, 0, j);
    assert forall k :: 0 <= k < j - i ==> tail[i..j][k] == line[at + i + k];
  }

  lemma ReadMovedHeader(m: Move, line: string, newline: string)
    requires MoveOk(m) && IsNewline(newline) && FitsScanner(HeaderCore(m.newName) + KeptComment(line) + newline)
    ensures Read(HeaderCore(m.newName) + KeptComment(line) + newline) == ToolHeader(m.newName)
  {
    var blanks, comment := KeptCommentShape(line);
    HeaderCoreReads(m.newName);
    ReadCore(HeaderCore(m.newName), blanks, comment, newline);
  }

  lemma LabelKeysArePlain()
    ensures PlainKey(FAMILY_KEY) && PlainKey(VERSION_KEY) && PlainKey(ALIAS_KEY) && PlainKey(SCHEMA_KEY)
  {
  }

  lemma ReadLabel(key: string, v: string, newline: string)
    requires IsLabelKey(key) && ValidVersion(v) && IsNewline(newline)
    requires FitsScanner(AssignCore(key, Quoted(v)) + newline)
    ensures Read(AssignCore(key, Quoted(v)) + newline) == Assign(key, Quoted(v))
  {
    LabelKeysArePlain();
    QuotedReads(v);
    ReadAssignCore(key, Quoted(v), newline);
  }

  lemma ItemsOfTwo(a: string, b: string, x: Item, y: Item)
    requires Read(a) == x && Read(b) == y
    ensures Items([a] + [b]) == [x] + [y]
  {
  }

  lemma ReadMovedFront(m: Move, line: string, newline: string)
    requires MoveOk(m) && IsNewline(newline)
    requires FitsScanner(HeaderCore(m.newName) + KeptComment(line) + newline)
    requires FitsScanner(AssignCore(FAMILY_KEY, Quoted(m.family)) + newline)
    ensures Items([HeaderCore(m.newName) + KeptComment(line) + newline] + [AssignCore(FAMILY_KEY, Quoted(m.family)) + newline]) ==
            [ToolHeader(m.newName)] + [Assign(FAMILY_KEY, Quoted(m.family))]
  {
    ReadMovedHeader(m, line, newline);
    NamesAreVersions(m.family);
    ReadLabel(FAMILY_KEY, m.family, newline);
    ItemsOfTwo(HeaderCore(m.newName) + KeptComment(line) + newline, AssignCore(FAMILY_KEY, Quoted(m.family)) + newline,
               ToolHeader(m.newName), Assign(FAMILY_KEY, Quoted(m.family)));
  }

  lemma ReadMovedBack(m: Move, newline: string)
    requires MoveOk(m) && IsNewline(newline)
    requires FitsScanner(AssignCore(VERSION_KEY, Quoted(m.version)) + newline)
    requires FitsScanner(AssignCore(ALIAS_KEY, Quoted(m.alias)) + newline)
    ensures Items([AssignCore(VERSION_KEY, Quoted(m.version)) + newline] + [AssignCore(ALIAS_KEY, Quoted(m.alias)) + newline]) ==
            [Assign(VERSION_KEY, Quoted(m.version))] + [Assign(ALIAS_KEY, Quoted(m.alias))]
  {
    NamesAreVersions(m.alias);
    ReadLabel(VERSION_KEY, m.version, newline);
    ReadLabel(ALIAS_KEY, m.alias, newline);
    ItemsOfTwo(AssignCore(VERSION_KEY, Quoted(m.version)) + newline, AssignCore(ALIAS_KEY, Quoted(m.alias)) + newline,
               Assign(VERSION_KEY, Quoted(m.version)), Assign(ALIAS_KEY, Quoted(m.alias)));
  }

  lemma ReadMoved(m: Move, line: string, newline: string)
    requires MoveOk(m) && IsNewline(newline) && AllFit(MovedLines(m, line, newline))
    ensures Items(MovedLines(m, line, newline)) == [ToolHeader(m.newName)] + LabelItems(m)
  {
    FitOfFour(HeaderCore(m.newName) + KeptComment(line) + newline, AssignCore(FAMILY_KEY, Quoted(m.family)) + newline,
              AssignCore(VERSION_KEY, Quoted(m.version)) + newline, AssignCore(ALIAS_KEY, Quoted(m.alias)) + newline);
    ReadMovedFront(m, line, newline);
    ReadMovedBack(m, newline);
    ItemsOfPairs(HeaderCore(m.newName) + KeptComment(line) + newline, AssignCore(FAMILY_KEY, Quoted(m.family)) + newline,
                 AssignCore(VERSION_KEY, Quoted(m.version)) + newline, AssignCore(ALIAS_KEY, Quoted(m.alias)) + newline);
  }

  lemma FitOfFour(a: string, b: string, c: string, d: string)
    requires AllFit([a, b, c, d])
    ensures FitsScanner(a) && FitsScanner(b) && FitsScanner(c) && FitsScanner(d)
  {
    var lines := [a, b, c, d];
    assert FitsScanner(lines[0]) && FitsScanner(lines[1]) && FitsScanner(lines[2]) && FitsScanner(lines[3]);
  }

  lemma ItemsOfPairs(a: string, b: string, c: string, d: string)
    ensures Items([a, b, c, d]) == Items([a] + [b]) + Items([c] + [d])
  {
    ItemsAppend([a] + [b], [c] + [d]);
    assert [a, b, c, d] == ([a] + [b]) + ([c] + [d]);
  }

  lemma SchemaNumber()
    ensures ClosedValue(Itoa(MAX_SCHEMA_VERSION)) && Unterminated(Itoa(MAX_SCHEMA_VERSION))
  {
    var s := Itoa(MAX_SCHEMA_VERSION);
    ItoaRoundTrip(MAX_SCHEMA_VERSION);
    assert s[0] in s && s[|s| - 1] in s && forall c :: c in s ==> IsDigit(c);
    PlainText(s);
  }

  lemma ReadSchema(newline: string)
    requires IsNewline(newline) && FitsScanner(SchemaLine(newline))
    ensures Read(SchemaLine(newline)) == SchemaItem()
  {
    LabelKeysArePlain();
    SchemaNumber();
    ReadAssignCore(SCHEMA_KEY, Itoa(MAX_SCHEMA_VERSION), newline);
  }

  // -------------------- the editor's tests are the parser's

  lemma KnownKeys(p: State, key: string, value: string)
    requires p.Reading? && Step(p, Assign(key, value)).Reading? && SCHEMA_KEY <= key
    ensures key == SCHEMA_KEY
  {
    assert key[0] == 's' && key[1] == 'c';
  }

  lemma SchemaTest(p: State, raw: string)
    requires p.Reading? && Step(p, Read(raw)).Reading?
    ensures IsSchemaLine(ScanToken(raw)) <==> Read(raw).Assign? && Read(raw).key == SCHEMA_KEY
  {
    MeaningOfToken(raw);
    var token := ScanToken(raw);
    var meaning := Meaning(token);
    if meaning == "" {
      S.BlankTrim(token);
    } else {
      S.TrimKeepsMeaning(token);
      if Read(raw).Assign? {
        SchemaKeyTest(p, meaning, Trim(token), Read(raw).key, Read(raw).value);
      } else {
        assert Trim(token)[0] == '[';
      }
    }
  }

  lemma SchemaKeyTest(p: State, meaning: string, trim: string, key: string, value: string)
    requires p.Reading? && Step(p, Assign(key, value)).Reading?
    requires meaning <= trim && Trimmed(meaning) && meaning != ""
    requires var eq := IndexOf(meaning, '='); eq < |meaning| && key == Trim(meaning[..eq])
    ensures SCHEMA_KEY <= trim <==> key == SCHEMA_KEY
  {
    if key == SCHEMA_KEY {
      S.KeyPrefix(meaning, IndexOf(meaning, '='), key);
    }
    if SCHEMA_KEY <= trim {
      SchemaWord(meaning, trim, IndexOf(meaning, '='));
      KnownKeys(p, key, value);
    }
  }

  lemma SchemaWord(meaning: string, trim: string, eq: nat)
    requires meaning <= trim && SCHEMA_KEY <= trim && Trimmed(meaning) && eq < |meaning| && meaning[eq] == '='
    ensures SCHEMA_KEY <= Trim(meaning[..eq])
  {
    SchemaKeyIsWord();
    KeyOfPrefix(meaning, trim, SCHEMA_KEY, eq);
  }

  lemma SchemaKeyIsWord()
    ensures SCHEMA_KEY != "" && '=' !in SCHEMA_KEY && !IsSpace(SCHEMA_KEY[|SCHEMA_KEY| - 1])
  {
  }

  /** A line that opens with a word free of `=` has a key that does. */
  lemma KeyOfPrefix(meaning: string, trim: string, word: string, eq: nat)
    requires meaning <= trim && word <= trim && Trimmed(meaning) && eq < |meaning| && meaning[eq] == '='
    requires word != "" && '=' !in word && !IsSpace(word[|word| - 1])
    ensures word <= Trim(meaning[..eq])
  {
    assert trim[eq] == '=';
    assert forall k :: 0 <= k < |word| ==> word[k] in word && word[k] == trim[k];
    var head := meaning[..eq];
    assert word == head[..|word|];
    PrefixOfTrim(head, word);
  }

  lemma HeaderTest(p: State, raw: string)
    requires p.Reading? && Step(p, Read(raw)).Reading?
    ensures Read(raw).ToolHeader? ==> HeaderTool(ScanToken(raw)) == Some(Read(raw).name)
    ensures !Read(raw).ToolHeader? ==> HeaderTool(ScanToken(raw)) == None
  {
    MeaningOfToken(raw);
    ReadHeader(raw);
  }

  /** The edit on one line of an accepted text: the schema line and the headers of moved
      profiles are replaced, the comment after such a header stays, every other line is
      written as it was read. */
  lemma RewrittenLine(moves: Moves, newline: string, p: State, raw: string) returns (code: string, comment: string)
    requires p.Reading? && Step(p, Read(raw)).Reading?
    ensures ScanToken(raw) == code + comment && Trim(code) == Meaning(ScanToken(raw))
    ensures comment == "" || comment[0] == '#'
    ensures var written := EditLine(moves, newline, raw);
            match Read(raw)
            case ToolHeader(name) =>
              if name !in moves then written == [raw]
              else
                && |written| == 4
                && written[0] == "[tools." + moves[name].newName + "]" + (if comment == "" then "" else " " + Trim(comment)) + newline
            case Assign(key, _) =>
              if key == "schema_version" then written == ["schema_version = " + "2" + newline] else written == [raw]
            case _ => written == [raw]
  {
    code, comment := CommentOf(ScanToken(raw));
    RewrittenTo(moves, newline, p, raw);
    SchemaLineIs(newline);
    if Read(raw).ToolHeader? && Read(raw).name in moves {
      HeaderIs(moves[Read(raw).name].newName);
      MovedFirst(moves[Read(raw).name], ScanToken(raw), newline);
    }
  }

  lemma CommentOf(line: string) returns (code: string, comment: string)
    ensures line == code + comment && Trim(code) == Meaning(line) && (comment == "" || comment[0] == '#')
    ensures KeptComment(line) == if comment == "" then "" else " " + Trim(comment)
  {
    code := StripComment(line);
    comment := line[|code|..];
    S.CommentStops(Plain, line);
  }

  lemma MovedFirst(m: Move, line: string, newline: string)
    ensures |MovedLines(m, line, newline)| == 4
    ensures MovedLines(m, line, newline)[0] == HeaderCore(m.newName) + KeptComment(line) + newline
  {
  }

  lemma RewrittenTo(moves: Moves, newline: string, p: State, raw: string)
    requires p.Reading? && Step(p, Read(raw)).Reading?
    ensures EditLine(moves, newline, raw) ==
            match Read(raw)
            case ToolHeader(name) => if name in moves then MovedLines(moves[name], ScanToken(raw), newline) else [raw]
            case Assign(key, _) => if key == SCHEMA_KEY then [SchemaLine(newline)] else [raw]
            case _ => [raw]
  {
    SchemaTest(p, raw);
    HeaderTest(p, raw);
  }

  lemma SchemaLineIs(newline: string)
    ensures SchemaLine(newline) == "schema_version = " + "2" + newline
  {
    assert Itoa(2) == "2";
  }

  lemma HeaderIs(name: string)
    ensures HeaderCore(name) == "[tools." + name + "]"
  {
    assert "[" + TOOLS == "[tools.";
  }

  /** A written line says the edited item. */
  lemma EditLineReads(moves: Moves, names: set<string>, newline: string, p: State, raw: string)
    requires MovesOk(moves, names) && IsNewline(newline)
    requires p.Reading? && Step(p, Read(raw)).Reading? && AllFit(EditLine(moves, newline, raw))
    ensures Items(EditLine(moves, newline, raw)) == EditItem(moves, Read(raw))
  {
    var lines := EditLine(moves, newline, raw);
    SchemaTest(p, raw);
    HeaderTest(p, raw);
    if IsSchemaLine(ScanToken(raw)) {
      assert FitsScanner(lines[0]);
      ReadSchema(newline);
    } else if Read(raw).ToolHeader? && Read(raw).name in moves {
      ReadMoved(moves[Read(raw).name], ScanToken(raw), newline);
    }
  }

  lemma LastLine(lines: seq<string>)
    requires lines != [] && Run(Start, Items(lines)).Reading?
    ensures var front, raw := lines[..|lines| - 1], lines[|lines| - 1];
            && Items(lines) == Items(front) + [Read(raw)] && Items(lines)[..|lines| - 1] == Items(front)
            && Run(Start, Items(front)).Reading? && Step(Run(Start, Items(front)), Read(raw)).Reading?
  {
    var k := |lines| - 1;
    assert Items(lines)[..k] == Items(lines[..k]) && Items(lines)[..k + 1] == Items(lines);
    RunPrefix(Start, Items(lines), k);
  }

  lemma {:induction false} EditItemsRead(moves: Moves, names: set<string>, newline: string, lines: seq<string>)
    requires MovesOk(moves, names) && IsNewline(newline) && Run(Start, Items(lines)).Reading?
    requires AllFit(EditLines(moves, newline, lines))
    ensures Items(EditLines(moves, newline, lines)) == EditItems(moves, Items(lines))
    decreases |lines|
  {
    if lines != [] {
      var front, raw := lines[..|lines| - 1], lines[|lines| - 1];
      LastLine(lines);
      var a, b := EditLines(moves, newline, front), EditLine(moves, newline, raw);
      AllFitAppend(a, b);
      EditItemsRead(moves, names, newline, front);
      EditLineReads(moves, names, newline, Run(Start, Items(front)), raw);
      ItemsAppend(a, b);
    }
  }

  // -------------------- the shape of the written text

  lemma CoreTerminated(core: string, newline: string)
    requires Unterminated(core) && IsNewline(newline)
    ensures Terminated(core + newline)
  {
    LineTerminated(core, newline);
  }

  lemma AssignUnterminated(key: string, value: string)
    requires PlainKey(key) && Unterminated(value)
    ensures Unterminated(AssignCore(key, value))
  {
    forall i | 0 <= i < |key| ensures key[i] != '\n' { assert key[i] in key; }
  }

  lemma SchemaLineTerminated(newline: string)
    requires IsNewline(newline)
    ensures Terminated(SchemaLine(newline))
  {
    LabelKeysArePlain();
    SchemaNumber();
    AssignUnterminated(SCHEMA_KEY, Itoa(MAX_SCHEMA_VERSION));
    CoreTerminated(AssignCore(SCHEMA_KEY, Itoa(MAX_SCHEMA_VERSION)), newline);
  }

  lemma LabelTerminated(key: string, v: string, newline: string)
    requires IsLabelKey(key) && ValidVersion(v) && IsNewline(newline)
    ensures Terminated(AssignCore(key, Quoted(v)) + newline)
  {
    LabelKeysArePlain();
    QuotedReads(v);
    AssignUnterminated(key, Quoted(v));
    CoreTerminated(AssignCore(key, Quoted(v)), newline);
  }

  lemma HeaderTerminated(m: Move, line: string, newline: string)
    requires MoveOk(m) && IsNewline(newline) && Unterminated(line)
    ensures Terminated(HeaderCore(m.newName) + KeptComment(line) + newline)
  {
    var _, _ := KeptCommentShape(line);
    ToolSection(m.newName);
    forall i | 0 <= i < |TOOLS + m.newName| ensures (TOOLS + m.newName)[i] != '\n' {
      assert (TOOLS + m.newName)[i] in TOOLS + m.newName;
    }
    CoreTerminated(HeaderCore(m.newName) + KeptComment(line), newline);
  }

  lemma MovedTerminated(m: Move, line: string, newline: string)
    requires MoveOk(m) && IsNewline(newline) && Unterminated(line)
    ensures AllTerminated(MovedLines(m, line, newline))
  {
    HeaderTerminated(m, line, newline);
    NamesAreVersions(m.family);
    NamesAreVersions(m.alias);
    LabelTerminated(FAMILY_KEY, m.family, newline);
    LabelTerminated(VERSION_KEY, m.version, newline);
    LabelTerminated(ALIAS_KEY, m.alias, newline);
  }

  /** A line is kept, or replaced by whole lines. */
  lemma EditLineShape(moves: Moves, names: set<string>, newline: string, raw: string)
    requires MovesOk(moves, names) && IsNewline(newline) && (Terminated(raw) || Unterminated(raw))
    ensures var lines := EditLine(moves, newline, raw); lines == [raw] || (lines != [] && AllTerminated(lines))
  {
    var line := ScanToken(raw);
    assert Unterminated(line);
    SchemaLineTerminated(newline);
    match HeaderTool(line) {
      case Some(name) => if name in moves { MovedTerminated(moves[name], line, newline); }
      case None =>
    }
  }

  lemma {:induction false} EditTerminated(moves: Moves, names: set<string>, newline: string, lines: seq<string>)
    requires MovesOk(moves, names) && IsNewline(newline) && AllTerminated(lines)
    ensures AllTerminated(EditLines(moves, newline, lines))
    decreases |lines|
  {
    if lines != [] {
      EditTerminated(moves, names, newline, lines[..|lines| - 1]);
      assert Terminated(lines[|lines| - 1]);
      EditLineShape(moves, names, newline, lines[|lines| - 1]);
    }
  }

  lemma EditShape(moves: Moves, names: set<string>, newline: string, lines: seq<string>)
    requires MovesOk(moves, names) && IsNewline(newline) && Lineated(lines) && lines != []
    ensures Lineated(EditLines(moves, newline, lines)) && EditLines(moves, newline, lines) != []
  {
    var init, last := lines[..|lines| - 1], lines[|lines| - 1];
    EditTerminated(moves, names, newline, init);
    EditLineShape(moves, names, newline, last);
    var a, b := EditLines(moves, newline, init), EditLine(moves, newline, last);
    forall i | 0 <= i < |a + b| - 1 ensures Terminated((a + b)[i]) {
      if i >= |a| { assert (a + b)[i] == b[i - |a|]; }
    }
    assert (a + b)[|a + b| - 1] == b[|b| - 1];
  }

  // ---------------------------------------------------------------- the migrated registry

  function MovedTools(moves: Moves, items: seq<Item>, tools: map<string, Tool>): map<string, Tool>
    requires MovesOk(moves, tools.Keys)
  {
    map n | n in tools :: NewName(moves, n) := Moved(moves, n, tools[n], LabelKeys(items, n))
  }

  /** The old registry under its new names, before anything is added. */
  function MovedRegistry(moves: Moves, data: string, reg: Registry): Registry
    requires MovesOk(moves, reg.tools.Keys)
  {
    Registry(MAX_SCHEMA_VERSION, MovedTools(moves, Items(SplitAfter(data)), reg.tools), reg.defaults)
  }

  lemma RenamedIsMoved(moves: Moves, items: seq<Item>, tools: map<string, Tool>, moved: map<string, Tool>)
    requires MovesOk(moves, tools.Keys) && ToolsMoved(moves, items, tools, moved)
    ensures moved == MovedTools(moves, items, tools)
  {
    assert Renamed(moves, Images(moves, items, tools), MovedTools(moves, items, tools)) by {
      MovedToolsRenamed(moves, items, tools);
    }
    RenamedIsUnique(moves, Images(moves, items, tools), moved, MovedTools(moves, items, tools));
  }

  lemma RenamedIsUnique<V>(moves: Moves, image: map<string, V>, a: map<string, V>, b: map<string, V>)
    requires Renamed(moves, image, a) && Renamed(moves, image, b)
    ensures a == b
  {
    forall k ensures k in a <==> k in b {
      if k in a { var n :| n in image && NewName(moves, n) == k; }
      if k in b { var n :| n in image && NewName(moves, n) == k; }
    }
    forall k | k in a ensures a[k] == b[k] {
      var n :| n in image && NewName(moves, n) == k;
    }
  }

  lemma MovedToolsRenamed(moves: Moves, items: seq<Item>, tools: map<string, Tool>)
    requires MovesOk(moves, tools.Keys)
    ensures Renamed(moves, Images(moves, items, tools), MovedTools(moves, items, tools))
  {
    var image, moved := Images(moves, items, tools), MovedTools(moves, items, tools);
    forall n | n in image ensures NewName(moves, n) in moved && moved[NewName(moves, n)] == image[n] { }
    forall k | k in moved ensures exists n :: n in image && NewName(moves, n) == k {
      var n :| n in tools && NewName(moves, n) == k;
      assert n in image;
    }
  }

  lemma RelabelledOk(t: Tool, m: Move, keys: set<string>)
    requires ToolOk(t)
    ensures ToolOk(Relabelled(t, m, keys))
  {
    var u := Relabelled(t, m, keys);
    assert u.hostMounts == t.hostMounts && u.projectVolumes + u.sharedVolumes == t.projectVolumes + t.sharedVolumes;
  }

  lemma MovedToolsOk(moves: Moves, items: seq<Item>, tools: map<string, Tool>)
    requires MovesOk(moves, tools.Keys) && forall n :: n in tools ==> ToolOk(tools[n])
    ensures var moved := MovedTools(moves, items, tools); forall k :: k in moved ==> ToolOk(moved[k])
    ensures tools != map[] ==> MovedTools(moves, items, tools) != map[]
  {
    var moved := MovedTools(moves, items, tools);
    forall k | k in moved ensures ToolOk(moved[k]) {
      var n :| n in tools && NewName(moves, n) == k;
      if n in moves { RelabelledOk(tools[n], moves[n], LabelKeys(items, n)); }
    }
    if tools != map[] {
      var n :| n in tools;
      assert NewName(moves, n) in moved;
    }
  }

  // ---------------------------------------------------------------- what the new text parses to

  /** The lines up to the appendix: a schema line if there was none, and the edited text. */
  function BodyLines(moves: Moves, newline: string, lines: seq<string>, given: bool): seq<string>
    requires EditLines(moves, newline, lines) != []
  {
    (if given then [SchemaLine(newline)] else []) + Closed(EditLines(moves, newline, lines), newline)
  }

  lemma RunGiven(given: bool, newline: string)
    requires IsNewline(newline) && AllFit(if given then [SchemaLine(newline)] else [])
    ensures Run(Start, Items(if given then [SchemaLine(newline)] else [])) == Begin(given)
  {
    if given {
      var lines := [SchemaLine(newline)];
      assert FitsScanner(lines[0]);
      ReadSchema(newline);
      assert Items(lines) == [SchemaItem()];
      RunOne(Start, SchemaItem());
      SchemaReads(Start);
    } else {
      var none: seq<string> := [];
      assert Items(none) == [];
    }
  }

  lemma ClosedFits(lines: seq<string>, newline: string)
    requires lines != [] && Lineated(lines) && IsNewline(newline) && AllFit(Closed(lines, newline))
    ensures AllFit(lines)
  {
    var init, last := lines[..|lines| - 1], lines[|lines| - 1];
    assert lines == init + [last];
    if last == "" {
      assert Closed(lines, newline) == init;
    } else if last[|last| - 1] != '\n' {
      assert Unterminated(last);
      AllFitAppend(init, [last + newline]);
      assert FitsScanner([last + newline][0]);
      FitsWithout(last, newline);
    }
  }

  /** The parser after the edited text holds the moved registry. */
  lemma RunBody(moves: Moves, newline: string, data: string, reg: Registry, given: bool)
    requires ParseTOML(data) == Ok(reg) && MovesOk(moves, reg.tools.Keys) && IsNewline(newline)
    requires given || HasSchema(Items(SplitAfter(data)))
    ensures EditLines(moves, newline, SplitAfter(data)) != []
    ensures var lines := BodyLines(moves, newline, SplitAfter(data), given);
            AllTerminated(lines) &&
            (AllFit(lines) ==>
               var q := Run(Start, Items(lines));
               q.Reading? && q.schema == MAX_SCHEMA_VERSION && q.defaults == reg.defaults
               && q.tools == MovedTools(moves, Items(SplitAfter(data)), reg.tools))
  {
    var lines := SplitAfter(data);
    AcceptedTools(data, reg);
    SplitAfterShape(data);
    RunBodyLines(moves, newline, lines, reg.tools, reg.defaults, given);
  }

  lemma RunBodyLines(moves: Moves, newline: string, lines: seq<string>, tools: map<string, Tool>, defaults: map<string, string>,
                     given: bool)
    requires MovesOk(moves, tools.Keys) && IsNewline(newline) && (given || HasSchema(Items(lines)))
    requires Lineated(lines) && lines != []
    requires var p := Run(Start, Items(lines)); p.Reading? && p.tools == tools && p.defaults == defaults
    ensures EditLines(moves, newline, lines) != []
    ensures var body := BodyLines(moves, newline, lines, given);
            AllTerminated(body) &&
            (AllFit(body) ==>
               var q := Run(Start, Items(body));
               q.Reading? && q.schema == MAX_SCHEMA_VERSION && q.defaults == defaults
               && q.tools == MovedTools(moves, Items(lines), tools))
  {
    EditShape(moves, tools.Keys, newline, lines);
    var edited := EditLines(moves, newline, lines);
    var first := if given then [SchemaLine(newline)] else [];
    BodyShape(edited, newline, given);
    AllFitAppend(first, Closed(edited, newline));
    if AllFit(first) && AllFit(Closed(edited, newline)) {
      RunGiven(given, newline);
      RunLines(Start, first, Closed(edited, newline));
      RunClosed(moves, newline, lines, tools, defaults, given);
    }
  }

  lemma BodyShape(edited: seq<string>, newline: string, given: bool)
    requires IsNewline(newline) && edited != [] && Lineated(edited)
    ensures AllTerminated((if given then [SchemaLine(newline)] else []) + Closed(edited, newline))
  {
    SchemaLineTerminated(newline);
    ClosedRuns(Start, edited, newline);
  }

  lemma RunClosed(moves: Moves, newline: string, lines: seq<string>, tools: map<string, Tool>, defaults: map<string, string>,
                  given: bool)
    requires MovesOk(moves, tools.Keys) && IsNewline(newline) && (given || HasSchema(Items(lines)))
    requires var p := Run(Start, Items(lines)); p.Reading? && p.tools == tools && p.defaults == defaults
    requires var edited := EditLines(moves, newline, lines);
             edited != [] && Lineated(edited) && AllFit(Closed(edited, newline))
    ensures var q := Run(Begin(given), Items(Closed(EditLines(moves, newline, lines), newline)));
            q.Reading? && q.schema == MAX_SCHEMA_VERSION && q.defaults == defaults
            && q.tools == MovedTools(moves, Items(lines), tools)
  {
    var edited := EditLines(moves, newline, lines);
    ClosedRuns(Begin(given), edited, newline);
    ClosedFits(edited, newline);
    RunEdited(moves, newline, lines, tools, defaults, given);
  }

  /** The parser after the edited lines alone. */
  lemma RunEdited(moves: Moves, newline: string, lines: seq<string>, tools: map<string, Tool>, defaults: map<string, string>,
                  given: bool)
    requires MovesOk(moves, tools.Keys) && IsNewline(newline) && (given || HasSchema(Items(lines)))
    requires var p := Run(Start, Items(lines)); p.Reading? && p.tools == tools && p.defaults == defaults
    requires AllFit(EditLines(moves, newline, lines))
    ensures var q := Run(Begin(given), Items(EditLines(moves, newline, lines)));
            q.Reading? && q.schema == MAX_SCHEMA_VERSION && q.defaults == defaults
            && q.tools == MovedTools(moves, Items(lines), tools)
  {
    EditItemsRead(moves, tools.Keys, newline, lines);
    MirrorAll(moves, tools.Keys, Items(lines), given);
    RenamedIsMoved(moves, Items(lines), tools, Run(Begin(given), Items(EditLines(moves, newline, lines))).tools);
  }

  /** All the lines of the migrated text. */
  ghost function MigratedLines(src: string, b: Registry, moves: Moves, data: string, reg: Registry, version: string): seq<string>
    requires MovesOk(moves, reg.tools.Keys) && EditLines(moves, S.NewlineOf(data), SplitAfter(data)) != []
  {
    var newline := S.NewlineOf(data);
    var moved := MovedRegistry(moves, data, reg);
    BodyLines(moves, newline, SplitAfter(data), !HasSchema(Items(SplitAfter(data))))
    + Appendix(src, Missing(b.defaults, moved.defaults), Missing(b.tools, moved.tools), version, newline)
  }

  /** The appendix completes whatever registry the parser holds. */
  lemma RunCompletion(src: string, b: Registry, st: State, version: string, newline: string)
    requires IsBuiltin(src, b) && st.Reading? && IsNewline(newline)
    ensures var appendix := Appendix(src, Missing(b.defaults, st.defaults), Missing(b.tools, st.tools), version, newline);
            AllFit(appendix) ==>
              var q := Run(st, Items(appendix));
              q.Reading? && q.schema == st.schema && q.defaults == b.defaults + st.defaults && q.tools == b.tools + st.tools
  {
    MissingLacks(b.defaults, st.defaults);
    MissingLacks(b.tools, st.tools);
    RunAppendix(src, b, st, Missing(b.defaults, st.defaults), Missing(b.tools, st.tools), version, newline);
  }

  lemma RunJoined(src: string, b: Registry, body: seq<string>, tools: map<string, Tool>, defaults: map<string, string>,
                  version: string, newline: string)
    requires IsBuiltin(src, b) && IsNewline(newline) && Unterminated(version) && AllTerminated(body)
    requires AllFit(body) ==>
               var st := Run(Start, Items(body));
               st.Reading? && st.schema == MAX_SCHEMA_VERSION && st.tools == tools && st.defaults == defaults
    ensures var lines := body + Appendix(src, Missing(b.defaults, defaults), Missing(b.tools, tools), version, newline);
            AllTerminated(lines) &&
            (AllFit(lines) ==>
               var q := Run(Start, Items(lines));
               q.Reading? && q.schema == MAX_SCHEMA_VERSION && q.defaults == b.defaults + defaults && q.tools == b.tools + tools)
  {
    var appendix := Appendix(src, Missing(b.defaults, defaults), Missing(b.tools, tools), version, newline);
    AppendixTerminated(src, Missing(b.defaults, defaults), Missing(b.tools, tools), version, newline);
    AllFitAppend(body, appendix);
    if AllFit(body) && AllFit(appendix) {
      RunLines(Start, body, appendix);
      RunCompletion(src, b, Run(Start, Items(body)), version, newline);
    }
  }

  lemma RunMigrated(src: string, b: Registry, moves: Moves, data: string, reg: Registry, version: string)
    requires IsBuiltin(src, b) && ParseTOML(data) == Ok(reg) && MovesOk(moves, reg.tools.Keys) && Unterminated(version)
    ensures EditLines(moves, S.NewlineOf(data), SplitAfter(data)) != []
    ensures var lines := MigratedLines(src, b, moves, data, reg, version);
            var moved := MovedRegistry(moves, data, reg);
            AllTerminated(lines) &&
            (AllFit(lines) ==>
               var q := Run(Start, Items(lines));
               q.Reading? && q.schema == MAX_SCHEMA_VERSION && q.defaults == b.defaults + moved.defaults
               && q.tools == b.tools + moved.tools)
  {
    var newline := S.NewlineOf(data);
    var given := !HasSchema(Items(SplitAfter(data)));
    RunBody(moves, newline, data, reg, given);
    var moved := MovedRegistry(moves, data, reg);
    RunJoined(src, b, BodyLines(moves, newline, SplitAfter(data), given), moved.tools, moved.defaults, version, newline);
  }

  /** The migrated text is accepted exactly when the merged registry is acceptable and no line
      outgrows the scanner; it then parses to the merged registry. */
  lemma MigratedParse(src: string, b: Registry, moves: Moves, data: string, reg: Registry, version: string)
    requires IsBuiltin(src, b) && ParseTOML(data) == Ok(reg) && MovesOk(moves, reg.tools.Keys) && Unterminated(version)
    ensures EditLines(moves, S.NewlineOf(data), SplitAfter(data)) != []
    ensures var lines := MigratedLines(src, b, moves, data, reg, version);
            var merged := Merged(MovedRegistry(moves, data, reg), b);
            if AllFit(lines) && DefaultsOk(merged) then ParseTOML(Concat(lines)) == Ok(merged)
            else ParseTOML(Concat(lines)).Err?
  {
    RunMigrated(src, b, moves, data, reg, version);
    var lines := MigratedLines(src, b, moves, data, reg, version);
    RunOfConcat(lines);
    if AllFit(lines) {
      AcceptedTools(data, reg);
      MovedToolsOk(moves, Items(SplitAfter(data)), reg.tools);
      FinishMerged(src, b, Run(Start, Items(lines)), MovedRegistry(moves, data, reg));
    } else {
      TooLongRejects(Start, lines);
    }
  }

  // ---------------------------------------------------------------- what the migration keeps

  /** The built-in profile a move leads to carries the labels of the move. */
  predicate LeadsTo(m: Move, b: Registry) {
    && m.newName in b.tools
    && var t := b.tools[m.newName];
       t.name == m.newName && t.defaultFamily == m.family && t.defaultVersion == m.version && t.defaultAlias == m.alias
  }

  /** A profile without its name and labels. */
  function Stripped(t: Tool): Tool {
    t.(name := "", defaultFamily := "", defaultVersion := "", defaultAlias := "")
  }

  /** A stock profile: equal to the built-in one but for the name and the labels, which are empty. */
  predicate IsStock(t: Tool, m: Move, b: Registry) {
    && m.newName in b.tools && t.(name := "") == Stripped(b.tools[m.newName])
  }

  /** Profiles that are not migrated survive unchanged, everything built in is there, and
      nothing else is. */
  lemma MigrationKeeps(b: Registry, moves: Moves, data: string, reg: Registry, n: string)
    requires MovesOk(moves, reg.tools.Keys)
    ensures var merged := Merged(MovedRegistry(moves, data, reg), b);
            && (n in reg.tools && n !in moves ==> n in merged.tools && merged.tools[n] == reg.tools[n])
            && (n in b.tools ==> n in merged.tools)
            && (n in merged.tools <==> n in b.tools || exists k :: k in reg.tools && NewName(moves, k) == n)
            && !NeedsDefaultUpgrade(b, merged)
  {
    var moved := MovedRegistry(moves, data, reg);
    MergedIsComplete(b, moved);
    if n in reg.tools && n !in moves { assert NewName(moves, n) == n; }
  }

  /** A migrated stock profile becomes the built-in one exactly when its section sets no label
      key. (A version 1 section may set one to the empty string, which then also overrides the
      label written in front of it.) */
  lemma MovedEqualsBuiltin(b: Registry, moves: Moves, data: string, reg: Registry, n: string)
    requires MovesOk(moves, reg.tools.Keys) && n in moves && n in reg.tools
    requires LeadsTo(moves[n], b) && IsStock(reg.tools[n], moves[n], b)
    ensures var merged := Merged(MovedRegistry(moves, data, reg), b);
            var k := moves[n].newName;
            k in merged.tools && (merged.tools[k] == b.tools[k] <==> LabelKeys(Items(SplitAfter(data)), n) == {})
  {
    var items := Items(SplitAfter(data));
    var m := moves[n];
    assert NewName(moves, n) == m.newName;
    OnlyLabelKeys(items, n);
    StockRelabelled(reg.tools[n], m, b, LabelKeys(items, n));
  }

  lemma {:induction false} OnlyLabelKeys(items: seq<Item>, n: string)
    ensures forall key :: key in LabelKeys(items, n) ==> IsLabelKey(key)
    decreases |items|
  {
    if items != [] { OnlyLabelKeys(items[..|items| - 1], n); }
  }

  lemma StockRelabelled(t: Tool, m: Move, b: Registry, keys: set<string>)
    requires MoveOk(m) && LeadsTo(m, b) && IsStock(t, m, b) && forall key :: key in keys ==> IsLabelKey(key)
    ensures Relabelled(t, m, keys) == b.tools[m.newName] <==> keys == {}
  {
    var want := b.tools[m.newName];
    assert t.(name := "").defaultFamily == "" && t.(name := "").defaultVersion == "" && t.(name := "").defaultAlias == "";
    if keys == {} {
      RelabelStripped(t, m, want);
    } else {
      var key :| key in keys;
    }
  }

  lemma RelabelStripped(t: Tool, m: Move, want: Tool)
    requires t.(name := "") == Stripped(want)
    requires want.name == m.newName && want.defaultFamily == m.family && want.defaultVersion == m.version
    requires want.defaultAlias == m.alias
    ensures Relabelled(t, m, {}) == want
  {
    var u := Relabelled(t, m, {});
    assert t.(name := "").image == t.image == want.image;
    assert u == t.(name := "").(name := want.name, defaultFamily := want.defaultFamily,
                                defaultVersion := want.defaultVersion, defaultAlias := want.defaultAlias);
  }

  // ---------------------------------------------------------------- the plan

  /** The new name of a profile that is there is taken by another. */
  predicate Clobbers(m: Move, tools: map<string, Tool>) {
    m.oldName in tools && m.oldName != m.newName && m.newName in tools
  }

  /** A profile that is there is not the stock one. */
  predicate IsCustomized(m: Move, tools: map<string, Tool>, b: Registry) {
    m.oldName in tools && !IsStock(tools[m.oldName], m, b)
  }

  /** A move applies without clobbering a profile, to a stock one. */
  predicate MoveFits(m: Move, tools: map<string, Tool>, b: Registry) {
    !Clobbers(m, tools) && !IsCustomized(m, tools, b)
  }

  /** The first move of the table that does not apply. */
  predicate FirstMisfit(table: seq<Move>, tools: map<string, Tool>, b: Registry, i: nat) {
    i < |table| && AllFits(table[..i], tools, b) && !MoveFits(table[i], tools, b)
  }

  /** The refusal says what is wrong with the first move that does not apply. */
  ghost predicate Stopped(table: seq<Move>, tools: map<string, Tool>, b: Registry, o: Outcome) {
    exists i: nat :: FirstMisfit(table, tools, b, i) && o == Refusal(table[i], tools)
  }

  function Refusal(m: Move, tools: map<string, Tool>): Outcome {
    if Clobbers(m, tools) then Collides else Customized
  }

  /** The moves whose profile is there. */
  function Active(table: seq<Move>, tools: map<string, Tool>): Moves {
    if table == [] then map[]
    else
      var front, m := Active(table[..|table| - 1], tools), table[|table| - 1];
      if m.oldName in tools then front[m.oldName := m] else front
  }

  predicate AllFits(table: seq<Move>, tools: map<string, Tool>, b: Registry) {
    forall i :: 0 <= i < |table| ==> MoveFits(table[i], tools, b)
  }

  lemma {:induction false} ActiveIs(table: seq<Move>, tools: map<string, Tool>)
    ensures forall n :: n in Active(table, tools) ==>
              n in tools && Active(table, tools)[n] in table && Active(table, tools)[n].oldName == n
    decreases |table|
  {
    if table != [] {
      var k := |table| - 1;
      ActiveIs(table[..k], tools);
      assert table == table[..k] + [table[k]];
    }
  }

  lemma ActiveOk(table: seq<Move>, tools: map<string, Tool>, b: Registry)
    requires TableOk(table) && AllFits(table, tools, b)
    ensures MovesOk(Active(table, tools), tools.Keys)
  {
    var moves := Active(table, tools);
    ActiveIs(table, tools);
    forall n | n in moves ensures MoveOk(moves[n]) {
      var i :| 0 <= i < |table| && table[i] == moves[n];
    }
    forall n, k | n in tools && k in tools && NewName(moves, n) == NewName(moves, k) ensures n == k {
      SameTarget(table, tools, b, n, k);
    }
  }

  lemma SameTarget(table: seq<Move>, tools: map<string, Tool>, b: Registry, n: string, k: string)
    requires TableOk(table) && AllFits(table, tools, b) && n in tools && k in tools
    requires NewName(Active(table, tools), n) == NewName(Active(table, tools), k)
    ensures n == k
  {
    var moves := Active(table, tools);
    ActiveIs(table, tools);
    if n in moves { FitsInTable(table, tools, b, moves[n]); }
    if k in moves { FitsInTable(table, tools, b, moves[k]); }
    if n in moves && k in moves { ApartInTable(table, moves[n], moves[k]); }
  }

  lemma FitsInTable(table: seq<Move>, tools: map<string, Tool>, b: Registry, m: Move)
    requires AllFits(table, tools, b) && m in table
    ensures MoveFits(m, tools, b)
  {
  }

  lemma ApartInTable(table: seq<Move>, m: Move, k: Move)
    requires TableOk(table) && m in table && k in table
    ensures m == k || Apart(m, k)
  {
    var i :| 0 <= i < |table| && table[i] == m;
    var j :| 0 <= j < |table| && table[j] == k;
    assert i == j || Apart(m, k) by {
      if i < j { assert Apart(table[i], table[j]); }
      if j < i { assert Apart(table[j], table[i]); }
    }
  }

  function NewNames(moves: Moves, tools: map<string, Tool>): set<string> {
    set n | n in tools :: NewName(moves, n)
  }

  /** One more move takes one name away and brings one. */
  lemma NewNamesStep(table: seq<Move>, tools: map<string, Tool>, b: Registry, i: nat)
    requires TableOk(table) && i < |table| && AllFits(table[..i], tools, b)
    requires table[i].oldName in tools
    ensures NewNames(Active(table[..i + 1], tools), tools) ==
            NewNames(Active(table[..i], tools), tools) - {table[i].oldName} + {table[i].newName}
    ensures Active(table[..i + 1], tools) == Active(table[..i], tools)[table[i].oldName := table[i]]
  {
    assert table[..i + 1][..i] == table[..i] && table[..i + 1][i] == table[i];
    NoEarlierMove(table, tools, i);
    NamesUpdate(Active(table[..i], tools), table[i], tools);
  }

  lemma NamesUpdate(before: Moves, m: Move, tools: map<string, Tool>)
    requires m.oldName in tools && m.oldName !in before
    requires forall n :: n in tools && n != m.oldName ==> NewName(before, n) != m.oldName
    ensures NewNames(before[m.oldName := m], tools) == NewNames(before, tools) - {m.oldName} + {m.newName}
  {
    var after := before[m.oldName := m];
    var was, now := NewNames(before, tools), NewNames(after, tools);
    assert NewName(after, m.oldName) == m.newName;
    forall x | x in now ensures x in was - {m.oldName} + {m.newName} {
      var n :| n in tools && NewName(after, n) == x;
      if n != m.oldName { assert NewName(before, n) == x; }
    }
    forall x | x in was && x != m.oldName ensures x in now {
      var n :| n in tools && NewName(before, n) == x;
      assert NewName(after, n) == x;
    }
  }

  lemma NoEarlierMove(table: seq<Move>, tools: map<string, Tool>, i: nat)
    requires TableOk(table) && i < |table|
    ensures table[i].oldName !in Active(table[..i], tools)
    ensures forall n :: n in tools && n != table[i].oldName ==> NewName(Active(table[..i], tools), n) != table[i].oldName
  {
    var before := Active(table[..i], tools);
    ActiveIs(table[..i], tools);
    forall n | n in before ensures n != table[i].oldName && before[n].newName != table[i].oldName {
      var j :| 0 <= j < |table[..i]| && table[..i][j] == before[n];
      assert Apart(table[j], table[i]);
    }
  }

  /** The first loop of upgradeV1Registry: it stops at the first move that clobbers a profile
      or meets a customised one. (Both profiles come out of the parser, which never makes an
      empty list that is not absent, so reflect.DeepEqual is equality on them.) */
  method PlanMoves(table: seq<Move>, tools: map<string, Tool>, desired: Registry)
    returns (error: Option<Outcome>, moves: Moves, existing: set<string>)
    requires TableOk(table)
    ensures error.None? <==> AllFits(table, tools, desired)
    ensures error.Some? ==> Stopped(table, tools, desired, error.value)
    ensures error.None? ==> moves == Active(table, tools) && existing == NewNames(moves, tools)
  {
    error, moves, existing := None, map[], tools.Keys;
    assert table[..0] == [];
    assert NewNames(map[], tools) == tools.Keys by {
      forall n | n in tools ensures n in NewNames(map[], tools) { assert NewName(map[], n) == n; }
    }
    for i := 0 to |table|
      invariant error.None? && AllFits(table[..i], tools, desired)
      invariant moves == Active(table[..i], tools) && existing == NewNames(moves, tools)
    {
      error, moves, existing := PlanMove(table, i, tools, desired, moves, existing);
      if error.Some? {
        assert FirstMisfit(table, tools, desired, i);
        return;
      }
    }
    assert table[..|table|] == table;
  }

  lemma FitsStep(table: seq<Move>, tools: map<string, Tool>, b: Registry, i: nat)
    requires i < |table|
    ensures AllFits(table[..i + 1], tools, b) <==> AllFits(table[..i], tools, b) && MoveFits(table[i], tools, b)
    ensures AllFits(table, tools, b) ==> MoveFits(table[i], tools, b)
    ensures table[i].oldName !in tools ==> Active(table[..i + 1], tools) == Active(table[..i], tools)
  {
    var more, less := table[..i + 1], table[..i];
    assert more[..i] == less && more[i] == table[i];
    if AllFits(more, tools, b) {
      forall j | 0 <= j < i ensures MoveFits(less[j], tools, b) { assert less[j] == more[j]; }
    }
  }

  method PlanMove(table: seq<Move>, i: nat, tools: map<string, Tool>, desired: Registry, moves0: Moves, existing0: set<string>)
    returns (error: Option<Outcome>, moves: Moves, existing: set<string>)
    requires TableOk(table) && i < |table| && AllFits(table[..i], tools, desired)
    requires moves0 == Active(table[..i], tools) && existing0 == NewNames(moves0, tools)
    ensures error.None? ==> AllFits(table[..i + 1], tools, desired)
                            && moves == Active(table[..i + 1], tools) && existing == NewNames(moves, tools)
    ensures error.Some? ==> !AllFits(table, tools, desired) && !MoveFits(table[i], tools, desired)
                            && error.value == Refusal(table[i], tools)
  {
    error, moves, existing := None, moves0, existing0;
    FitsStep(table, tools, desired, i);
    var m := table[i];
    if m.oldName !in tools { return; }
    if m.oldName != m.newName && m.newName in tools { return Some(Collides), moves, existing; }
    var tool := tools[m.oldName].(name := "");
    if m.newName !in desired.tools || tool != Stripped(desired.tools[m.newName]) {
      return Some(Customized), moves, existing;
    }
    NewNamesStep(table, tools, desired, i);
    moves := moves[m.oldName := m];
    existing := existing - {m.oldName} + {m.newName};
  }

  /** What the plan moves is stock. */
  lemma ActiveIsStock(table: seq<Move>, tools: map<string, Tool>, b: Registry, n: string)
    requires AllFits(table, tools, b) && n in Active(table, tools)
    ensures n in tools && IsStock(tools[n], Active(table, tools)[n], b) && Active(table, tools)[n] in table
  {
    ActiveIs(table, tools);
    FitsInTable(table, tools, b, Active(table, tools)[n]);
  }

  // ---------------------------------------------------------------- writing the new text

  /** The loop over the lines of the old text. */
  method EditLoop(moves: Moves, newline: string, lines: seq<string>) returns (out: string, foundSchema: bool)
    requires Run(Start, Items(lines)).Reading?
    ensures out == Concat(EditLines(moves, newline, lines))
    ensures foundSchema <==> HasSchema(Items(lines))
  {
    out, foundSchema := "", false;
    ghost var items := Items(lines);
    assert lines[..0] == [];
    for i := 0 to |lines|
      invariant out == Concat(EditLines(moves, newline, lines[..i]))
      invariant foundSchema <==> HasSchema(items[..i])
    {
      SchemaSeen(lines, i);
      EditStep(moves, newline, lines, i);
      var written := WriteLine(moves, newline, lines[i]);
      out := out + written;
      if IsSchemaLine(ScanToken(lines[i])) { foundSchema := true; }
    }
    assert lines[..|lines|] == lines && items[..|lines|] == items;
  }

  /** One more line: the flag of the loop, and the schema lines the parser has seen. */
  lemma SchemaSeen(lines: seq<string>, i: nat)
    requires i < |lines| && Run(Start, Items(lines)).Reading?
    ensures HasSchema(Items(lines)[..i + 1]) <==> HasSchema(Items(lines)[..i]) || IsSchemaLine(ScanToken(lines[i]))
  {
    var items := Items(lines);
    RunPrefix(Start, items, i);
    SchemaTest(Run(Start, items[..i]), lines[i]);
    assert items[..i + 1] == items[..i] + [Read(lines[i])];
    HasSchemaStep(items[..i], Read(lines[i]));
  }

  lemma EditStep(moves: Moves, newline: string, lines: seq<string>, i: nat)
    requires i < |lines|
    ensures Concat(EditLines(moves, newline, lines[..i + 1])) ==
            Concat(EditLines(moves, newline, lines[..i])) + Concat(EditLine(moves, newline, lines[i]))
  {
    assert lines[..i + 1][..i] == lines[..i];
    ConcatAppend(EditLines(moves, newline, lines[..i]), EditLine(moves, newline, lines[i]));
  }

  lemma ConcatOfFour(a: string, b: string, c: string, d: string)
    ensures Concat([a, b, c, d]) == a + b + c + d
  {
    ConcatEnd([a, b, c], d);
    ConcatEnd([a, b], c);
    ConcatEnd([a], b);
    ConcatOne(a);
    assert [a, b, c, d] == [a, b, c] + [d] && [a, b, c] == [a, b] + [c] && [a, b] == [a] + [b];
  }

  method WriteLine(moves: Moves, newline: string, raw: string) returns (out: string)
    ensures out == Concat(EditLine(moves, newline, raw))
  {
    var line := ScanToken(raw);
    if IsSchemaLine(line) {
      ConcatOne(SchemaLine(newline));
      return SchemaLine(newline);
    }
    var name := HeaderTool(line);
    if name.Some? && name.value in moves {
      var m := moves[name.value];
      ConcatOfFour(HeaderCore(m.newName) + KeptComment(line) + newline, AssignCore(FAMILY_KEY, Quoted(m.family)) + newline,
                   AssignCore(VERSION_KEY, Quoted(m.version)) + newline, AssignCore(ALIAS_KEY, Quoted(m.alias)) + newline);
      out := HeaderCore(m.newName) + KeptComment(line) + newline;
      out := out + (AssignCore(FAMILY_KEY, Quoted(m.family)) + newline);
      out := out + (AssignCore(VERSION_KEY, Quoted(m.version)) + newline);
      out := out + (AssignCore(ALIAS_KEY, Quoted(m.alias)) + newline);
      return;
    }
    ConcatOne(raw);
    return raw;
  }

  lemma BodyText(moves: Moves, newline: string, data: string, reg: Registry, given: bool)
    requires ParseTOML(data) == Ok(reg) && MovesOk(moves, reg.tools.Keys) && IsNewline(newline)
    ensures EditLines(moves, newline, SplitAfter(data)) != []
    ensures Concat(BodyLines(moves, newline, SplitAfter(data), given)) ==
            (if given then SchemaLine(newline) else "") + EndLine(Concat(EditLines(moves, newline, SplitAfter(data))), newline)
  {
    SplitAfterShape(data);
    EditShape(moves, reg.tools.Keys, newline, SplitAfter(data));
    var edited := EditLines(moves, newline, SplitAfter(data));
    ConcatClosed(edited, newline);
    ConcatAppend(if given then [SchemaLine(newline)] else [], Closed(edited, newline));
    if given { ConcatOne(SchemaLine(newline)); }
  }

  lemma NewNamesAreKeys(moves: Moves, items: seq<Item>, tools: map<string, Tool>)
    requires MovesOk(moves, tools.Keys)
    ensures NewNames(moves, tools) == MovedTools(moves, items, tools).Keys
  {
  }

  /** The sorted names of the sections not yet there. */
  method AbsentNames(texts: map<string, string>, existing: set<string>, ghost all: map<string, Tool>, ghost have: map<string, Tool>)
    returns (names: seq<string>)
    requires (forall n :: n in texts <==> n in all) && existing == have.Keys
    ensures names == Missing(all, have)
  {
    names := SortedElements(set n | n in texts && n !in existing);
    assert (set n | n in texts && n !in existing) == (set n | n in all && n !in have);
    EnumerationUnique(names, Missing(all, have), set n | n in all && n !in have);
  }

  method BuildMigrated(src: string, ghost b: Registry, moves: Moves, existing: set<string>, data: string, reg: Registry,
                       version: string) returns (text: string)
    requires IsBuiltin(src, b) && ParseTOML(data) == Ok(reg) && reg.schema == 1 && MovesOk(moves, reg.tools.Keys)
    requires existing == NewNames(moves, reg.tools)
    ensures EditLines(moves, S.NewlineOf(data), SplitAfter(data)) != []
    ensures text == Concat(MigratedLines(src, b, moves, data, reg, version))
  {
    var newline := S.NewlineOf(data);
    AcceptedTools(data, reg);
    var body, foundSchema := EditLoop(moves, newline, SplitAfter(data));
    BodyText(moves, newline, data, reg, !foundSchema);
    body := (if foundSchema then "" else SchemaLine(newline)) + EndLine(body, newline);
    var toolTexts := DefaultSections(src, TOOLS, b);
    var familyTexts := DefaultSections(src, DEFAULTS, b);
    ghost var moved := MovedRegistry(moves, data, reg);
    NewNamesAreKeys(moves, Items(SplitAfter(data)), reg.tools);
    MissingInSections(src, b, moved);
    var families := MissingNames(familyTexts, map[], b.defaults);
    var names := AbsentNames(toolTexts, existing, b.tools, moved.tools);
    var appendix := WriteAppendix(src, toolTexts, familyTexts, families, names, version, newline);
    ConcatAppend(BodyLines(moves, newline, SplitAfter(data), !foundSchema), Appendix(src, families, names, version, newline));
    return body + appendix;
  }

  /** Every profile the plan moves becomes the built-in one exactly when its section sets no
      label key. */
  lemma MigratedEqualsBuiltin(b: Registry, table: seq<Move>, data: string, reg: Registry, n: string)
    requires TableOk(table) && AllFits(table, reg.tools, b) && n in Active(table, reg.tools)
    requires forall i :: 0 <= i < |table| ==> LeadsTo(table[i], b)
    ensures MovesOk(Active(table, reg.tools), reg.tools.Keys)
    ensures var moves := Active(table, reg.tools);
            var merged := Merged(MovedRegistry(moves, data, reg), b);
            var k := moves[n].newName;
            k in b.tools && k in merged.tools && (merged.tools[k] == b.tools[k] <==> LabelKeys(Items(SplitAfter(data)), n) == {})
  {
    ActiveOk(table, reg.tools, b);
    ActiveIsStock(table, reg.tools, b, n);
    LeadsInTable(table, b, Active(table, reg.tools)[n]);
    MovedEqualsBuiltin(b, Active(table, reg.tools), data, reg, n);
  }

  lemma LeadsInTable(table: seq<Move>, b: Registry, m: Move)
    requires m in table && forall i :: 0 <= i < |table| ==> LeadsTo(table[i], b)
    ensures LeadsTo(m, b)
  {
  }

  /** And whenever the upgrade is written, the section sets no label key or all three. */
  lemma LabelsAllOrNone(b: Registry, table: seq<Move>, data: string, reg: Registry, n: string)
    requires TableOk(table) && AllFits(table, reg.tools, b) && n in Active(table, reg.tools)
    requires MovesOk(Active(table, reg.tools), reg.tools.Keys)
    requires DefaultsOk(Merged(MovedRegistry(Active(table, reg.tools), data, reg), b))
    ensures var keys := LabelKeys(Items(SplitAfter(data)), n);
            keys == {} || keys == {FAMILY_KEY, VERSION_KEY, ALIAS_KEY}
  {
    var moves, items := Active(table, reg.tools), Items(SplitAfter(data));
    var keys, merged := LabelKeys(items, n), Merged(MovedRegistry(moves, data, reg), b);
    ActiveIsStock(table, reg.tools, b, n);
    OnlyLabelKeys(items, n);
    assert NewName(moves, n) == moves[n].newName && moves[n].newName in merged.tools;
    assert MetadataOk(merged.schema, merged.tools.Keys, merged.tools[moves[n].newName]);
    HalfLabelled(reg.tools[n], moves[n], b, keys, merged.schema, merged.tools.Keys);
  }

  /** A stock profile moved with some of its labels overridden and some not is not acceptable. */
  lemma HalfLabelled(t: Tool, m: Move, b: Registry, keys: set<string>, schema: nat, concrete: set<string>)
    requires MoveOk(m) && IsStock(t, m, b) && forall key :: key in keys ==> IsLabelKey(key)
    requires MetadataOk(schema, concrete, Relabelled(t, m, keys))
    ensures keys == {} || keys == {FAMILY_KEY, VERSION_KEY, ALIAS_KEY}
  {
    assert t.(name := "").defaultFamily == "" && t.(name := "").defaultVersion == "" && t.(name := "").defaultAlias == "";
    if FAMILY_KEY in keys || VERSION_KEY in keys || ALIAS_KEY in keys {
      assert FAMILY_KEY in keys && VERSION_KEY in keys && ALIAS_KEY in keys;
    }
  }

  /** upgradeV1Registry, from the bytes read to the bytes handed to the atomic writer. */
  method UpgradeV1(src: string, ghost b: Registry, table: seq<Move>, data: string, reg: Registry, version: string)
    returns (o: Outcome)
    requires IsBuiltin(src, b) && ParseTOML(data) == Ok(reg) && reg.schema == 1 && TableOk(table) && Unterminated(version)
    ensures if AllFits(table, reg.tools, b) then Migrated(src, b, table, data, reg, version, o)
            else Stopped(table, reg.tools, b, o)
  {
    var desired := ParseTOML(src).value;
    var error, moves, existing := PlanMoves(table, reg.tools, desired);
    if error.Some? { return error.value; }
    o := WriteMigrated(src, b, table, moves, existing, data, reg, version);
  }

  /** The outcome once every move fits: each moved profile was stock, and the new text is
      written exactly when the merged registry is acceptable and no line outgrows the scanner. */
  ghost predicate Migrated(src: string, b: Registry, table: seq<Move>, data: string, reg: Registry, version: string, o: Outcome) {
    var moves := Active(table, reg.tools);
    && MovesOk(moves, reg.tools.Keys) && EditLines(moves, S.NewlineOf(data), SplitAfter(data)) != []
    && (forall n :: n in moves ==> n in reg.tools && IsStock(reg.tools[n], moves[n], b))
    && var lines := MigratedLines(src, b, moves, data, reg, version);
       var merged := Merged(MovedRegistry(moves, data, reg), b);
       if AllFit(lines) && DefaultsOk(merged) then o == Write(Concat(lines)) && ParseTOML(o.text) == Ok(merged)
       else o.Refused?
  }

  method WriteMigrated(src: string, ghost b: Registry, ghost table: seq<Move>, moves: Moves, existing: set<string>,
                       data: string, reg: Registry, version: string) returns (o: Outcome)
    requires IsBuiltin(src, b) && ParseTOML(data) == Ok(reg) && reg.schema == 1 && TableOk(table) && Unterminated(version)
    requires AllFits(table, reg.tools, b) && moves == Active(table, reg.tools) && existing == NewNames(moves, reg.tools)
    ensures Migrated(src, b, table, data, reg, version, o)
  {
    ActiveOk(table, reg.tools, b);
    forall n | n in moves ensures n in reg.tools && IsStock(reg.tools[n], moves[n], b) {
      ActiveIsStock(table, reg.tools, b, n);
    }
    var text := BuildMigrated(src, b, moves, existing, data, reg, version);
    MigratedParse(src, b, moves, data, reg, version);
    var again := ParseTOML(text);
    if again.Err? { return Refused(again.error); }
    return Write(text);
  }

  // ---------------------------------------------------------------- both versions

  lemma {:induction false} SchemaInRange(st: State, items: seq<Item>)
    requires st.Reading? && 1 <= st.schema <= MAX_SCHEMA_VERSION
    ensures var end := Run(st, items); end.Reading? ==> 1 <= end.schema <= MAX_SCHEMA_VERSION
    decreases |items|
  {
    if items != [] {
      var next := Step(st, items[0]);
      if next.Rejected? { RunRejected(next, items[1..]); } else { SchemaInRange(next, items[1..]); }
    }
  }

  lemma AcceptedSchema(data: string, reg: Registry)
    requires ParseTOML(data) == Ok(reg)
    ensures reg.schema == 1 || reg.schema == MAX_SCHEMA_VERSION
  {
    AcceptedTools(data, reg);
    SchemaInRange(Start, Items(SplitAfter(data)));
  }

  /** What an upgrade makes of an accepted registry: of version 1, the stock profiles moved
      and the rest added; of version 2, the rest added. */
  ghost predicate UpgradesTo(b: Registry, table: seq<Move>, data: string, reg: Registry, upgraded: Registry) {
    if reg.schema == 1 then
      && AllFits(table, reg.tools, b) && MovesOk(Active(table, reg.tools), reg.tools.Keys)
      && upgraded == Merged(MovedRegistry(Active(table, reg.tools), data, reg), b)
    else upgraded == Merged(reg, b)
  }

  lemma UpgradeIsComplete(b: Registry, table: seq<Move>, data: string, reg: Registry, upgraded: Registry)
    requires UpgradesTo(b, table, data, reg, upgraded)
    ensures !NeedsDefaultUpgrade(b, upgraded)
  {
    if reg.schema == 1 {
      MergedIsComplete(b, MovedRegistry(Active(table, reg.tools), data, reg));
    } else {
      MergedIsComplete(b, reg);
    }
  }

  /** AppendMissingDefaultToolsMode: it does nothing exactly when nothing is missing, and what
      it writes parses to the upgraded registry, which needs no further upgrade. */
  method AppendMissingDefaultTools(src: string, ghost b: Registry, table: seq<Move>, data: string, version: string)
    returns (o: Outcome)
    requires IsBuiltin(src, b) && TableOk(table) && Unterminated(version)
    ensures match ParseTOML(data)
            case Err(reason) => o == Unreadable(reason)
            case Ok(reg) =>
              if reg.schema != 1 then Appended(src, b, data, reg, version, o)
              else if AllFits(table, reg.tools, b) then Migrated(src, b, table, data, reg, version, o)
              else Stopped(table, reg.tools, b, o)
    ensures o.NothingToDo? <==> ParseTOML(data).Ok? && !NeedsDefaultUpgrade(b, ParseTOML(data).value)
    ensures o.Write? ==> ParseTOML(o.text).Ok? && !NeedsDefaultUpgrade(b, ParseTOML(o.text).value)
                         && UpgradesTo(b, table, data, ParseTOML(data).value, ParseTOML(o.text).value)
  {
    var parsed := ParseLoop(data);
    if parsed.Err? { return Unreadable(parsed.error); }
    var reg := parsed.value;
    AcceptedSchema(data, reg);
    if reg.schema == 1 {
      o := UpgradeFromV1(src, b, table, data, reg, version);
    } else {
      o := AppendMissing(src, b, data, reg, version);
    }
    if o.Write? { UpgradeIsComplete(b, table, data, reg, ParseTOML(o.text).value); }
  }

  method UpgradeFromV1(src: string, ghost b: Registry, table: seq<Move>, data: string, reg: Registry, version: string)
    returns (o: Outcome)
    requires IsBuiltin(src, b) && ParseTOML(data) == Ok(reg) && reg.schema == 1 && TableOk(table) && Unterminated(version)
    ensures if AllFits(table, reg.tools, b) then Migrated(src, b, table, data, reg, version, o)
            else Stopped(table, reg.tools, b, o)
    ensures !o.Unreadable? && !o.NothingToDo?
    ensures o.Write? ==> ParseTOML(o.text).Ok? && UpgradesTo(b, table, data, reg, ParseTOML(o.text).value)
  {
    o := UpgradeV1(src, b, table, data, reg, version);
  }

  /** A second upgrade writes nothing. */
  method UpgradeTwice(src: string, ghost b: Registry, table: seq<Move>, data: string, version: string, next: string)
    returns (first: Outcome, second: Outcome)
    requires IsBuiltin(src, b) && TableOk(table) && Unterminated(version) && Unterminated(next)
    ensures first.Write? ==> second.NothingToDo?
  {
    first := AppendMissingDefaultTools(src, b, table, data, version);
    second := AppendMissingDefaultTools(src, b, table, if first.Write? then first.text else data, next);
  }
}
