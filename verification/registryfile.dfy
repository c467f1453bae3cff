/**
 * internal/registry/file.go: the editors that rewrite registry text line by line.
 * Each is proved to do to the parsed registry exactly what it is meant to do.
 */
module RegistryFile {
  import opened Wrappers
  import opened Text
  import opened Toml
  import opened Registry

  // ---------------------------------------------------------------- provenance comments

  predicate IsProvenance(raw: string) {
    "# Exposed from " <= Trim(raw) && Contains(Trim(raw), " by cb expose")
  }

  function NextNonBlank(lines: seq<string>, i: nat): (h: nat)
    requires i <= |lines|
    ensures i <= h <= |lines|
    ensures forall k :: i <= k < h ==> Trim(lines[k]) == ""
    decreases |lines| - i
  {
    if i < |lines| && Trim(lines[i]) == "" then NextNonBlank(lines, i + 1) else i
  }

  function ToolHeaderName(raw: string): Option<string> {
    match ParseSectionHeader(raw)
    case Section(section) => ToolOfSection(section)
    case _ => None
  }

  /** A generated comment with the blank lines after it, up to the tool header it belongs to. */
  datatype Block = Block(from: nat, to: nat, owner: string)

  /** The block a provenance comment at line `i` opens, if a tool header follows it. */
  function BlockAt(lines: seq<string>, i: nat): Option<Block>
    requires i < |lines|
  {
    var h := NextNonBlank(lines, i + 1);
    if !IsProvenance(lines[i]) || h == |lines| then None
    else match ToolHeaderName(lines[h]) case None => None case Some(name) => Some(Block(i, h, name))
  }

  function BlocksOf(lines: seq<string>): (blocks: seq<Option<Block>>)
    ensures |blocks| == |lines|
    ensures forall i :: 0 <= i < |lines| ==> blocks[i] == BlockAt(lines, i)
  {
    seq(|lines|, i requires 0 <= i < |lines| => BlockAt(lines, i))
  }

  /** Line `k` lies in a block whose tool is removed (or, with `removed` false, is not). */
  predicate Covered(blocks: seq<Option<Block>>, remove: set<string>, removed: bool, k: nat) {
    exists i :: 0 <= i < |blocks| && blocks[i].Some? && blocks[i].value.from <= k < blocks[i].value.to
                && (blocks[i].value.owner in remove <==> removed)
  }

  predicate KeptProvenance(lines: seq<string>, remove: set<string>, k: nat) {
    Covered(BlocksOf(lines), remove, false, k)
  }

  predicate DroppedProvenance(lines: seq<string>, remove: set<string>, k: nat) {
    Covered(BlocksOf(lines), remove, true, k)
  }

  lemma CoveredStep(blocks: seq<Option<Block>>, remove: set<string>, removed: bool, i: nat, k: nat)
    requires i < |blocks|
    ensures Covered(blocks[..i + 1], remove, removed, k) <==>
            || Covered(blocks[..i], remove, removed, k)
            || (blocks[i].Some? && blocks[i].value.from <= k < blocks[i].value.to
                && (blocks[i].value.owner in remove <==> removed))
  {
    var more, less := blocks[..i + 1], blocks[..i];
    if Covered(less, remove, removed, k) {
      var j :| 0 <= j < |less| && less[j].Some? && less[j].value.from <= k < less[j].value.to
               && (less[j].value.owner in remove <==> removed);
      assert more[j] == less[j];
    }
    if Covered(more, remove, removed, k) {
      var j :| 0 <= j < |more| && more[j].Some? && more[j].value.from <= k < more[j].value.to
               && (more[j].value.owner in remove <==> removed);
      if j < i { assert less[j] == more[j]; }
    }
    assert more[i] == blocks[i];
  }

  function LineRange(from: nat, to: nat): (r: set<nat>)
    decreases if from < to then to - from else 0
    ensures forall k: nat :: k in r <==> from <= k < to
  {
    if from >= to then {} else {from} + LineRange(from + 1, to)
  }

  /** exposedProvenanceLines: the generated comments to keep and to drop with their tools. */
  method ExposedProvenanceLines(lines: seq<string>, remove: set<string>) returns (keep: set<nat>, drop: set<nat>)
    ensures forall k: nat :: k in keep <==> KeptProvenance(lines, remove, k)
    ensures forall k: nat :: k in drop <==> DroppedProvenance(lines, remove, k)
  {
    keep, drop := {}, {};
    ghost var blocks := BlocksOf(lines);
    for i := 0 to |lines|
      invariant Collects(keep, blocks[..i], remove, false) && Collects(drop, blocks[..i], remove, true)
    {
      CoveredNext(blocks, remove, false, i, keep);
      CoveredNext(blocks, remove, true, i, drop);
      var block := FindBlock(lines, i);
      keep, drop := AddBlock(block, remove, keep, drop);
    }
    assert blocks[..|lines|] == blocks;
  }

  /** The lines of one block, filed under what becomes of its owner. */
  method AddBlock(block: Option<Block>, remove: set<string>, keep0: set<nat>, drop0: set<nat>)
    returns (keep: set<nat>, drop: set<nat>)
    ensures keep == keep0 + Adds(block, remove, false) && drop == drop0 + Adds(block, remove, true)
  {
    keep, drop := keep0, drop0;
    if block.None? { return; }
    var range := LineRange(block.value.from, block.value.to);
    if block.value.owner in remove { drop := drop + range; } else { keep := keep + range; }
  }

  /** What one more block adds to the lines covered so far. */
  ghost function Adds(block: Option<Block>, remove: set<string>, removed: bool): set<nat> {
    if block.Some? && (block.value.owner in remove <==> removed) then LineRange(block.value.from, block.value.to) else {}
  }

  ghost predicate Collects(covered: set<nat>, blocks: seq<Option<Block>>, remove: set<string>, removed: bool) {
    forall k: nat :: k in covered <==> Covered(blocks, remove, removed, k)
  }

  lemma CoveredNext(blocks: seq<Option<Block>>, remove: set<string>, removed: bool, i: nat, covered: set<nat>)
    requires i < |blocks| && Collects(covered, blocks[..i], remove, removed)
    ensures Collects(covered + Adds(blocks[i], remove, removed), blocks[..i + 1], remove, removed)
  {
    forall k: nat
      ensures k in covered + Adds(blocks[i], remove, removed) <==> Covered(blocks[..i + 1], remove, removed, k)
    {
      CoveredStep(blocks, remove, removed, i, k);
    }
  }

  /** Look past blank lines for the header a provenance comment belongs to. */
  method FindBlock(lines: seq<string>, i: nat) returns (block: Option<Block>)
    requires i < |lines|
    ensures block == BlockAt(lines, i)
  {
    if !IsProvenance(lines[i]) { return None; }
    var header := i + 1;
    while header < |lines| && Trim(lines[header]) == ""
      invariant i + 1 <= header <= |lines|
      invariant NextNonBlank(lines, i + 1) == NextNonBlank(lines, header)
    {
      header := header + 1;
    }
    if header >= |lines| { return None; }
    var name := ToolHeaderName(lines[header]);
    return if name.None? then None else Some(Block(i, header, name.value));
  }

  /** Provenance lines say nothing to the parser. */
  lemma ProvenanceIsMeaningless(lines: seq<string>, i: nat, k: nat)
    requires i < |lines| && BlockAt(lines, i).Some?
    requires i <= k < BlockAt(lines, i).value.to
    ensures k < |lines| && Meaning(lines[k]) == ""
  {
    if k == i {
      CommentIsMeaningless(lines[k]);
    } else {
      BlankIsMeaningless(lines[k]);
    }
  }

  lemma CommentIsMeaningless(line: string)
    requires Trim(line) != "" && Trim(line)[0] == '#'
    ensures Meaning(line) == ""
  {
    var a, b := TrimSplit(line);
    assert line == line[..a] + line[a..];
    assert line[a..b][0] == '#';
    BlankThenHash(line[..a], line[a..]);
    TrimAllSpace(line[..a]);
  }

  lemma BlankIsMeaningless(line: string)
    requires Trim(line) == ""
    ensures Meaning(line) == ""
  {
    var a, b := TrimSplit(line);
    assert line == line[..a] + line[a..];
    assert AllSpace(line);
    assert "" + line == line;
    MeaningOfSuffix("", line);
  }

  lemma BlankThenHash(blank: string, rest: string)
    requires AllSpace(blank) && rest != "" && rest[0] == '#'
    ensures StripComment(blank + rest) == blank
  {
    assert forall i :: 0 <= i < |blank| ==> IsSpace(blank[i]);
    assert '"' !in blank && '#' !in blank;
    PlainText(blank);
    CommentAppend(Plain, blank, rest);
  }

  // ---------------------------------------------------------------- removing tools

  function Without(reg: Registry, remove: set<string>): Registry {
    reg.(tools := reg.tools - remove)
  }

  /** The rules that removing tools from an accepted registry can break. */
  predicate StillAcceptable(reg: Registry) {
    reg.tools != map[] && DefaultsOk(reg)
  }

  /** Whether the editor is inside a removed section after one more line. */
  function SkipAfter(skip: bool, item: Item, remove: set<string>): bool {
    match item
    case ToolHeader(name) => name in remove
    case FamilyHeader(_) => false
    case OtherHeader => false
    case _ => skip
  }

  function Skips(items: seq<Item>, remove: set<string>): bool {
    items != [] && SkipAfter(Skips(items[..|items| - 1], remove), items[|items| - 1], remove)
  }

  /** The lines chosen by a mask. */
  function Select<T>(lines: seq<T>, mask: seq<bool>): seq<T>
    requires |mask| == |lines|
  {
    if lines == [] then []
    else Select(lines[..|lines| - 1], mask[..|mask| - 1]) +
         (if mask[|mask| - 1] then [lines[|lines| - 1]] else [])
  }

  /** Which lines the editor writes: those outside removed sections and the kept
      provenance comments, but not the dropped ones. */
  function KeptMask(lines: seq<string>, remove: set<string>): (mask: seq<bool>)
    ensures |mask| == |lines|
    ensures forall i :: 0 <= i < |lines| ==>
              mask[i] == (!DroppedProvenance(lines, remove, i)
                          && (!Skips(Items(lines)[..i + 1], remove) || KeptProvenance(lines, remove, i)))
  {
    seq(|lines|, i requires 0 <= i < |lines| =>
      !DroppedProvenance(lines, remove, i)
      && (!Skips(Items(lines)[..i + 1], remove) || KeptProvenance(lines, remove, i)))
  }

  function Kept(lines: seq<string>, remove: set<string>): seq<string> {
    Select(lines, KeptMask(lines, remove))
  }

  /** The parser on the full text and on the edited text, side by side. */
  predicate InStep(p: State, q: State, skip: bool, remove: set<string>) {
    && p.Reading? && q.Reading?
    && q.schema == p.schema && q.defaults == p.defaults && q.tools == p.tools - remove
    && (skip <==> p.at.InTool? && p.at.name in remove)
    && (!skip ==> q.at == p.at)
  }

  lemma StepKept(p: State, q: State, item: Item, skip: bool, remove: set<string>)
    requires InStep(p, q, skip, remove) && Step(p, item).Reading?
    requires !SkipAfter(skip, item, remove)
    ensures InStep(Step(p, item), Step(q, item), false, remove)
  {
    if p.at.InTool? && item.Assign? {
      assert p.at.name in p.tools <==> p.at.name in q.tools;
    } else if item.ToolHeader? {
      HeaderKept(p, q, item, skip, remove);
    }
  }

  lemma HeaderKept(p: State, q: State, item: Item, skip: bool, remove: set<string>)
    requires InStep(p, q, skip, remove) && item.ToolHeader? && Step(p, item).Reading?
    requires !SkipAfter(skip, item, remove)
    ensures InStep(Step(p, item), Step(q, item), false, remove)
  {
  }

  lemma StepSkipped(p: State, q: State, item: Item, skip: bool, remove: set<string>)
    requires InStep(p, q, skip, remove) && Step(p, item).Reading?
    requires SkipAfter(skip, item, remove)
    ensures InStep(Step(p, item), q, true, remove)
  {
  }

  /** A mask that drops what the editor skips and nothing else, up to lines that say nothing. */
  predicate Faithful(items: seq<Item>, mask: seq<bool>, remove: set<string>) {
    && |mask| == |items|
    && forall i :: 0 <= i < |items| ==> items[i].Blank? || mask[i] == !Skips(items[..i + 1], remove)
  }

  lemma FaithfulPrefix(items: seq<Item>, mask: seq<bool>, remove: set<string>)
    requires items != [] && Faithful(items, mask, remove)
    ensures Faithful(items[..|items| - 1], mask[..|mask| - 1], remove)
  {
    var front := items[..|items| - 1];
    forall i | 0 <= i < |front| ensures front[i].Blank? || mask[i] == !Skips(front[..i + 1], remove) {
      assert front[..i + 1] == items[..i + 1];
    }
  }

  /** The parser's state on the edited text follows its state on the full text. */
  lemma {:induction false} SelectionFollows(items: seq<Item>, mask: seq<bool>, remove: set<string>)
    requires Faithful(items, mask, remove)
    requires Run(Start, items).Reading?
    ensures InStep(Run(Start, items), Run(Start, Select(items, mask)), Skips(items, remove), remove)
    decreases |items|
  {
    if items != [] {
      var k := |items| - 1;
      var item, front, chosen := items[k], items[..k], Select(items[..k], mask[..k]);
      FaithfulPrefix(items, mask, remove);
      assert items[..k + 1] == items;
      RunPrefix(Start, items, k);
      SelectionFollows(front, mask[..k], remove);
      var p, q, skip := Run(Start, front), Run(Start, chosen), Skips(front, remove);
      RunAppend(Start, chosen, [item]);
      RunOne(q, item);
      assert chosen + [] == chosen;
      if item.Blank? {
      } else if mask[k] {
        StepKept(p, q, item, skip, remove);
      } else {
        StepSkipped(p, q, item, skip, remove);
      }
    }
  }

  lemma {:induction false} SelectItems(lines: seq<string>, mask: seq<bool>)
    requires |mask| == |lines|
    ensures Items(Select(lines, mask)) == Select(Items(lines), mask)
    decreases |lines|
  {
    if lines != [] {
      var k := |lines| - 1;
      SelectItems(lines[..k], mask[..k]);
      assert Items(lines)[..k] == Items(lines[..k]);
      ItemsAppend(Select(lines[..k], mask[..k]), if mask[k] then [lines[k]] else []);
    }
  }

  lemma {:induction false} SelectTerminated(lines: seq<string>, mask: seq<bool>)
    requires |mask| == |lines| && forall i :: 0 <= i < |lines| ==> Terminated(lines[i])
    ensures forall i :: 0 <= i < |Select(lines, mask)| ==> Terminated(Select(lines, mask)[i])
    decreases |lines|
  {
    if lines != [] { SelectTerminated(lines[..|lines| - 1], mask[..|lines| - 1]); }
  }

  lemma SelectLineated(lines: seq<string>, mask: seq<bool>)
    requires |mask| == |lines| && Lineated(lines)
    ensures Lineated(Select(lines, mask))
  {
    if lines != [] {
      SelectTerminated(lines[..|lines| - 1], mask[..|lines| - 1]);
    }
  }

  /** The header test of the editors agrees with the parser's on every accepted line. */
  lemma HeaderMeansSkip(skip: bool, raw: string, remove: set<string>)
    requires FitsScanner(raw) && !Read(raw).OtherHeader?
    ensures SkipAfter(skip, Read(raw), remove) ==
            match ParseSectionHeader(raw)
            case Section(section) => TOOLS <= section && Lower(Trim(section[|TOOLS|..])) in remove
            case _ => skip
  {
    ReadHeader(raw);
  }

  lemma ProvenanceIsBlank(lines: seq<string>, remove: set<string>, i: nat)
    requires i < |lines| && FitsScanner(lines[i])
    requires KeptProvenance(lines, remove, i) || DroppedProvenance(lines, remove, i)
    ensures Read(lines[i]) == Blank
  {
    var blocks := BlocksOf(lines);
    var j :| 0 <= j < |blocks| && blocks[j].Some? && blocks[j].value.from <= i < blocks[j].value.to;
    ProvenanceIsMeaningless(lines, j, i);
    ReadBlank(lines[i]);
  }

  lemma KeptIsFaithful(lines: seq<string>, remove: set<string>)
    requires forall i :: 0 <= i < |lines| ==> FitsScanner(lines[i])
    ensures Faithful(Items(lines), KeptMask(lines, remove), remove)
  {
    forall i | 0 <= i < |lines| && (KeptProvenance(lines, remove, i) || DroppedProvenance(lines, remove, i))
      ensures Items(lines)[i].Blank?
    {
      ProvenanceIsBlank(lines, remove, i);
    }
  }

  lemma AcceptedLinesFit(lines: seq<string>)
    requires Run(Start, Items(lines)).Reading?
    ensures forall i :: 0 <= i < |lines| ==>
              FitsScanner(lines[i]) && !Items(lines)[i].BadHeader? && !Items(lines)[i].OtherHeader?
  {
    forall i | 0 <= i < |lines|
      ensures FitsScanner(lines[i]) && !Items(lines)[i].BadHeader? && !Items(lines)[i].OtherHeader?
    {
      RunPrefix(Start, Items(lines), i);
    }
  }

  predicate IsHeader(item: Item) {
    item.ToolHeader? || item.FamilyHeader? || item.OtherHeader?
  }

  /** Line `k` stands in the section of a removed tool, whose header is line `j`. */
  ghost predicate InSectionOf(items: seq<Item>, k: nat, j: nat, remove: set<string>) {
    && j <= k < |items|
    && items[j].ToolHeader? && items[j].name in remove
    && forall m :: j < m <= k ==> !IsHeader(items[m])
  }

  lemma {:induction false} SkipsMeansRemoved(items: seq<Item>, remove: set<string>, k: nat)
    requires k < |items|
    ensures Skips(items[..k + 1], remove) <==> exists j: nat :: InSectionOf(items, k, j, remove)
  {
    SkipsStep(items, remove, k);
    if IsHeader(items[k]) {
      if items[k].ToolHeader? && items[k].name in remove { assert InSectionOf(items, k, k, remove); }
    } else if k > 0 {
      SkipsMeansRemoved(items, remove, k - 1);
      var last := k - 1;
      if j: nat :| InSectionOf(items, last, j, remove) {
        assert InSectionOf(items, k, j, remove);
      }
      if j: nat :| InSectionOf(items, k, j, remove) {
        assert InSectionOf(items, last, j, remove);
      }
    }
  }

  /** Line `k` is a generated comment, or a blank line after it, directly above the header of
      the tool `name` on line `h`. */
  ghost predicate InCommentOf(lines: seq<string>, k: nat, i: nat, h: nat, name: string) {
    && i <= k < h < |lines|
    && IsProvenance(lines[i]) && Read(lines[h]) == ToolHeader(name)
    && forall m :: i < m < h ==> Trim(lines[m]) == ""
  }

  lemma {:induction false} NextNonBlankIs(lines: seq<string>, from: nat, h: nat)
    requires from <= h < |lines| && Trim(lines[h]) != "" && forall m :: from <= m < h ==> Trim(lines[m]) == ""
    ensures NextNonBlank(lines, from) == h
    decreases h - from
  {
    if from < h { NextNonBlankIs(lines, from + 1, h); }
  }

  lemma {:induction false} NextNonBlankHas(lines: seq<string>, from: nat)
    requires from <= |lines| && NextNonBlank(lines, from) < |lines|
    ensures Trim(lines[NextNonBlank(lines, from)]) != ""
    decreases |lines| - from
  {
    if Trim(lines[from]) == "" { NextNonBlankHas(lines, from + 1); }
  }

  ghost predicate NoStrayHeader(lines: seq<string>) {
    forall m :: 0 <= m < |lines| ==> FitsScanner(lines[m]) && !Read(lines[m]).OtherHeader?
  }

  lemma NamesOfSection(section: string, name: string)
    requires !HeaderItem(section).OtherHeader?
    ensures HeaderItem(section) == ToolHeader(name) <==> ToolOfSection(section) == Some(name)
  {
  }

  lemma HeaderNames(raw: string, name: string)
    requires FitsScanner(raw) && !Read(raw).OtherHeader?
    ensures Read(raw) == ToolHeader(name) <==> ToolHeaderName(raw) == Some(name)
  {
    var header, read := ParseSectionHeader(raw), Read(raw);
    ReadHeader(raw);
    if header.Section? { NamesOfSection(header.name, name); }
  }

  /** The blocks are the comments above tool headers. */
  lemma CommentIsBlock(lines: seq<string>, i: nat, k: nat, h: nat, name: string)
    requires InCommentOf(lines, k, i, h, name) && NoStrayHeader(lines)
    ensures BlockAt(lines, i) == Some(Block(i, h, name))
  {
    HeaderIsNotBlank(lines[h]);
    NextNonBlankIs(lines, i + 1, h);
    HeaderNames(lines[h], name);
  }

  lemma BlockIsComment(lines: seq<string>, i: nat, k: nat)
    requires i < |lines| && BlockAt(lines, i).Some? && i <= k < BlockAt(lines, i).value.to
    requires NoStrayHeader(lines)
    ensures InCommentOf(lines, k, i, BlockAt(lines, i).value.to, BlockAt(lines, i).value.owner)
  {
    var block := BlockAt(lines, i).value;
    HeaderNames(lines[block.to], block.owner);
  }

  lemma HeaderIsNotBlank(raw: string)
    requires Read(raw).ToolHeader?
    ensures Trim(raw) != ""
  {
    if Trim(raw) == "" {
      BlankIsMeaningless(raw);
      ReadBlank(raw);
    }
  }

  /** A line belongs to at most one such comment. */
  lemma OneComment(lines: seq<string>, k: nat, i: nat, h: nat, name: string, j: nat, g: nat, other: string)
    requires InCommentOf(lines, k, i, h, name) && InCommentOf(lines, k, j, g, other)
    ensures i == j && h == g && name == other
  {
    HeaderIsNotBlank(lines[h]);
    HeaderIsNotBlank(lines[g]);
  }

  /** Which lines are written: a comment goes where its tool goes, whatever section it stands
      in; every other line stays unless its section is that of a removed tool. */
  lemma WrittenLines(lines: seq<string>, remove: set<string>, k: nat)
    requires k < |lines| && Run(Start, Items(lines)).Reading?
    ensures forall i: nat, h: nat, name :: InCommentOf(lines, k, i, h, name) ==>
              (KeptMask(lines, remove)[k] <==> name !in remove)
    ensures (forall i: nat, h: nat, name :: !InCommentOf(lines, k, i, h, name)) ==>
              (KeptMask(lines, remove)[k] <==> !exists j: nat :: InSectionOf(Items(lines), k, j, remove))
  {
    AcceptedLinesFit(lines);
    SkipsMeansRemoved(Items(lines), remove, k);
    forall i: nat, h: nat, name | InCommentOf(lines, k, i, h, name)
      ensures KeptMask(lines, remove)[k] <==> name !in remove
    {
      CommentDecides(lines, remove, k, i, h, name);
    }
    if forall i: nat, h: nat, name :: !InCommentOf(lines, k, i, h, name) {
      NoCommentNoBlock(lines, remove, k, true);
      NoCommentNoBlock(lines, remove, k, false);
    }
  }

  lemma CommentDecides(lines: seq<string>, remove: set<string>, k: nat, i: nat, h: nat, name: string)
    requires InCommentOf(lines, k, i, h, name)
    requires NoStrayHeader(lines)
    ensures KeptProvenance(lines, remove, k) <==> name !in remove
    ensures DroppedProvenance(lines, remove, k) <==> name in remove
  {
    var blocks := BlocksOf(lines);
    CommentIsBlock(lines, i, k, h, name);
    assert blocks[i] == Some(Block(i, h, name));
    forall j | 0 <= j < |blocks| && blocks[j].Some? && blocks[j].value.from <= k < blocks[j].value.to
      ensures blocks[j].value.owner == name
    {
      BlockIsComment(lines, j, k);
      OneComment(lines, k, i, h, name, j, blocks[j].value.to, blocks[j].value.owner);
    }
  }

  lemma NoCommentNoBlock(lines: seq<string>, remove: set<string>, k: nat, removed: bool)
    requires NoStrayHeader(lines)
    requires forall i: nat, h: nat, name :: !InCommentOf(lines, k, i, h, name)
    ensures !Covered(BlocksOf(lines), remove, removed, k)
  {
    var blocks := BlocksOf(lines);
    forall j | 0 <= j < |lines| ensures !Holds(blocks[j], k) {
      NotInBlock(lines, j, k);
    }
  }

  predicate Holds(block: Option<Block>, k: nat) {
    block.Some? && block.value.from <= k < block.value.to
  }

  lemma NotInBlock(lines: seq<string>, i: nat, k: nat)
    requires i < |lines| && NoStrayHeader(lines)
    requires forall h: nat, name :: !InCommentOf(lines, k, i, h, name)
    ensures !Holds(BlockAt(lines, i), k)
  {
    var block := BlockAt(lines, i);
    if Holds(block, k) { BlockIsComment(lines, i, k); }
  }

  lemma KeptRun(lines: seq<string>, remove: set<string>)
    requires Lineated(lines) && Run(Start, Items(lines)).Reading?
    ensures Lineated(Kept(lines, remove))
    ensures InStep(Run(Start, Items(lines)), Run(Start, Items(Kept(lines, remove))), Skips(Items(lines), remove), remove)
  {
    var mask := KeptMask(lines, remove);
    AcceptedLinesFit(lines);
    KeptIsFaithful(lines, remove);
    SelectionFollows(Items(lines), mask, remove);
    SelectItems(lines, mask);
    SelectLineated(lines, mask);
  }

  lemma FinishFollows(p: State, q: State, skip: bool, remove: set<string>)
    requires InStep(p, q, skip, remove) && Finish(p).Ok?
    ensures var edited := Without(Finish(p).value, remove);
            Finish(q) ==
            if StillAcceptable(edited) then Ok(edited)
            else if edited.tools == map[] then Err(NoTools) else Err(InvalidDefaults)
  {
  }

  /** Removing tools commutes with parsing: the edited text parses to the registry without
      them, with the same schema and defaults, whenever what is left is acceptable at all. */
  lemma RemovalCommutes(data: string, remove: set<string>)
    requires ParseTOML(data).Ok?
    ensures var edited := Without(ParseTOML(data).value, remove);
            ParseTOML(Concat(Kept(SplitAfter(data), remove))) ==
            if StillAcceptable(edited) then Ok(edited)
            else if edited.tools == map[] then Err(NoTools) else Err(InvalidDefaults)
  {
    var lines := SplitAfter(data);
    SplitAfterShape(data);
    KeptRun(lines, remove);
    RunOfConcat(Kept(lines, remove));
    FinishFollows(Run(Start, Items(lines)), Run(Start, Items(Kept(lines, remove))), Skips(Items(lines), remove), remove);
  }

  lemma SelectStep<T>(lines: seq<T>, mask: seq<bool>, i: nat)
    requires |mask| == |lines| && i < |lines|
    ensures Select(lines[..i + 1], mask[..i + 1]) ==
            Select(lines[..i], mask[..i]) + if mask[i] then [lines[i]] else []
  {
    assert lines[..i + 1][..i] == lines[..i];
    assert mask[..i + 1][..i] == mask[..i];
  }

  lemma SkipsStep(items: seq<Item>, remove: set<string>, i: nat)
    requires i < |items|
    ensures Skips(items[..i + 1], remove) == SkipAfter(Skips(items[..i], remove), items[i], remove)
  {
    assert items[..i + 1][..i] == items[..i];
  }

  /** The editor's header test: a tool header opens a section to skip or to write. */
  method AdvanceSkip(before: bool, raw: string, remove: set<string>) returns (skip: bool)
    requires FitsScanner(raw) && !Read(raw).OtherHeader?
    ensures skip == SkipAfter(before, Read(raw), remove)
  {
    HeaderMeansSkip(before, raw, remove);
    skip := before;
    match ParseSectionHeader(raw) {
      case Section(section) =>
        skip := false;
        if TOOLS <= section {
          skip := Lower(Trim(section[|TOOLS|..])) in remove;
        }
      case _ =>
    }
  }

  /** The line loop of RewriteWithoutTools on text the parser has accepted. */
  method KeptLines(lines: seq<string>, remove: set<string>) returns (out: seq<string>)
    requires Run(Start, Items(lines)).Reading?
    ensures out == Kept(lines, remove)
  {
    AcceptedLinesFit(lines);
    var keepProvenance, dropProvenance := ExposedProvenanceLines(lines, remove);
    out := [];
    var skip := false;
    ghost var items, mask := Items(lines), KeptMask(lines, remove);
    for lineNo := 0 to |lines|
      invariant out == Select(lines[..lineNo], mask[..lineNo])
      invariant skip == Skips(items[..lineNo], remove)
    {
      SkipsStep(items, remove, lineNo);
      SelectStep(lines, mask, lineNo);
      if lineNo in dropProvenance {
        ProvenanceIsBlank(lines, remove, lineNo);
        continue;
      }
      skip := AdvanceSkip(skip, lines[lineNo], remove);
      if !skip || lineNo in keepProvenance {
        out := out + [lines[lineNo]];
      }
    }
    assert lines[..|lines|] == lines && mask[..|lines|] == mask;
  }

  /** RewriteWithoutTools, from the bytes read to the bytes handed to the atomic writer. */
  method RewriteWithoutTools(data: string, remove: set<string>) returns (r: Result<string, Reason>)
    ensures r.Ok? <==> ParseTOML(data).Ok? && StillAcceptable(Without(ParseTOML(data).value, remove))
    ensures r.Ok? ==> ParseTOML(r.value) == Ok(Without(ParseTOML(data).value, remove))
    ensures r.Ok? ==> r.value == Concat(Kept(SplitAfter(data), remove))
  {
    var parsed := ParseTOML(data);
    if parsed.Err? { return Err(parsed.error); }
    var out := KeptLines(SplitAfter(data), remove);
    RemovalCommutes(data, remove);
    var again := ParseTOML(Concat(out));
    if again.Err? { return Err(again.error); }
    return Ok(Concat(out));
  }
}
