/**
 * internal/registry/file.go: SetDefaultVersion, which rewrites the one line that selects
 * a runtime family's version.
 */
module SwitchDefault {
  import opened Wrappers
  import opened Text
  import opened Toml
  import opened Registry
  import opened Aliases

  datatype Outcome =
    | Unchanged
    | Rewritten(text: string)
    | Unreadable(reason: Reason)
    | UnknownFamily
    | UnavailableVersion
    | NoWritableKey
    | Refused(reason: Reason)
    | RefusedByValidator

  // ---------------------------------------------------------------- the rewritten line

  predicate IsBlankChar(c: char) { c == ' ' || c == '\t' }

  function TrimBlanksLeft(s: string): (r: string)
    ensures |r| <= |s|
  {
    if s != "" && IsBlankChar(s[0]) then TrimBlanksLeft(s[1..]) else s
  }

  function TrimBlanksRight(s: string): (r: string)
    ensures |r| <= |s|
  {
    if s != "" && IsBlankChar(s[|s| - 1]) then TrimBlanksRight(s[..|s| - 1]) else s
  }

  /** The new line: the old indentation, the new selection, and the old trailing comment. */
  function NewLine(line: string, version: string, newline: string): string {
    var indent := line[..|line| - |TrimBlanksLeft(line)|];
    var rest := line[|TrimBlanksRight(StripComment(line))|..];
    indent + ("version = \"" + version + "\"") + rest + newline
  }

  /** The key test of the editor, made before the comment is stripped. */
  predicate IsVersionLine(line: string) {
    var trim := Trim(line);
    "version" <= trim && Trim(trim[..IndexOf(trim, '=')]) == "version"
  }

  /** A header spelled exactly as the family's table, up to case folding. */
  predicate NamesFamily(raw: string, family: string) {
    match ParseSectionHeader(raw)
    case Section(section) => EqualFold(section, DEFAULTS + family)
    case _ => false
  }

  function InFamilyAfter(inFamily: bool, raw: string, family: string): bool {
    if ParseSectionHeader(raw).Section? then NamesFamily(raw, family) else inFamily
  }

  // ---------------------------------------------------------------- what the line says

  lemma {:induction false} QuoteOfVersion(shown: Printable, version: string)
    requires forall i :: 0 <= i < |version| ==> NameChar(version[i]) || version[i] == '.'
    ensures QuoteBody(shown, version) == version
  {
    if version != "" { QuoteOfVersion(shown, version[1..]); }
  }

  lemma VersionReadsBack(version: string)
    requires ValidVersion(version)
    ensures ParseQuoted("\"" + version + "\"") == Some(version)
    ensures After(Plain, "\"" + version + "\"") == Plain
    ensures CommentAt(Plain, "\"" + version + "\"") == |version| + 2
  {
    QuoteOfVersion(_ => true, version);
    ParseQuotedQuote(_ => true, version);
    QuoteLex(_ => true, version);
  }

  lemma {:induction false} BlanksRightSplit(s: string) returns (k: nat)
    ensures k <= |s| && TrimBlanksRight(s) == s[..k] && AllSpace(s[k..])
  {
    if s != "" && IsBlankChar(s[|s| - 1]) {
      k := BlanksRightSplit(s[..|s| - 1]);
      assert s[k..] == s[..|s| - 1][k..] + [s[|s| - 1]];
    } else {
      k := |s|;
    }
  }

  lemma {:induction false} BlanksLeftSplit(s: string) returns (k: nat)
    ensures k <= |s| && TrimBlanksLeft(s) == s[k..] && AllSpace(s[..k])
  {
    if s != "" && IsBlankChar(s[0]) {
      var j := BlanksLeftSplit(s[1..]);
      k := j + 1;
      assert s[..k] == [s[0]] + s[1..][..j];
    } else {
      k := 0;
    }
  }

  /** What is kept of the old line after its value: blanks and perhaps a comment. */
  lemma RestSplit(line: string) returns (blanks: string, comment: string)
    ensures line[|TrimBlanksRight(StripComment(line))|..] == blanks + comment
    ensures AllSpace(blanks) && (comment == "" || comment[0] == '#')
  {
    var at := CommentAt(Plain, line);
    var k := BlanksRightSplit(StripComment(line));
    blanks, comment := StripComment(line)[k..], line[at..];
    assert line[k..] == blanks + comment;
    CommentStops(Plain, line);
  }

  lemma {:induction false} CommentStops(q: Lex, s: string)
    ensures CommentAt(q, s) == |s| || s[CommentAt(q, s)] == '#'
    decreases |s|
  {
    if s != "" && !(q == Plain && s[0] == '#') { CommentStops(Next(q, s[0]), s[1..]); }
  }

  lemma SpaceIsPlain(s: string)
    requires AllSpace(s)
    ensures After(Plain, s) == Plain && CommentAt(Plain, s) == |s|
  {
    assert forall i :: 0 <= i < |s| ==> IsSpace(s[i]) && s[i] != '"' && s[i] != '#';
    PlainText(s);
  }

  /** A closed core between white space, perhaps with a comment, says just the core. */
  lemma MeaningOfCore(pad: string, core: string, blanks: string, comment: string, newline: string)
    requires AllSpace(pad) && AllSpace(blanks) && AllSpace(newline)
    requires ClosedValue(core) && (comment == "" || comment[0] == '#')
    ensures Meaning(pad + core + (blanks + comment) + newline) == core
  {
    var body := pad + core + blanks;
    BodyIsPlain(pad, core, blanks);
    assert pad + core + (blanks + comment) + newline == body + (comment + newline);
    StripAfter(body, comment, newline);
    if comment == "" {
      assert body + newline == pad + core + (blanks + newline);
      TrimCore(pad, core, blanks + newline);
    } else {
      TrimCore(pad, core, blanks);
    }
  }

  /** After text outside quotes, a comment goes and white space stays. */
  lemma StripAfter(body: string, comment: string, newline: string)
    requires After(Plain, body) == Plain && CommentAt(Plain, body) == |body| && AllSpace(newline)
    requires comment == "" || comment[0] == '#'
    ensures StripComment(body + (comment + newline)) == if comment == "" then body + newline else body
  {
    var tail := comment + newline;
    CommentAppend(Plain, body, tail);
    if comment == "" {
      SpaceIsPlain(newline);
      assert tail == newline;
    } else {
      assert tail[0] == '#';
    }
  }

  lemma BodyIsPlain(pad: string, core: string, blanks: string)
    requires AllSpace(pad) && AllSpace(blanks) && ClosedValue(core)
    ensures var body := pad + core + blanks; After(Plain, body) == Plain && CommentAt(Plain, body) == |body|
  {
    SpaceIsPlain(pad);
    SpaceIsPlain(blanks);
    CommentAppend(Plain, pad, core);
    AfterAppend(Plain, pad, core);
    CommentAppend(Plain, pad + core, blanks);
    AfterAppend(Plain, pad + core, blanks);
  }

  lemma NewLineShape(line: string, version: string, newline: string)
    returns (pad: string, blanks: string, comment: string)
    ensures NewLine(line, version, newline) == pad + ("version = \"" + version + "\"") + (blanks + comment) + newline
    ensures AllSpace(pad) && AllSpace(blanks) && (comment == "" || comment[0] == '#')
  {
    var k := BlanksLeftSplit(line);
    pad := line[..k];
    blanks, comment := RestSplit(line);
  }

  lemma SelectionIsClosed(version: string)
    requires ValidVersion(version)
    ensures ClosedValue("version = \"" + version + "\"")
  {
    var value := "\"" + version + "\"";
    VersionReadsBack(version);
    VersionKeyIsPlain();
    ClosedAssign("version", value);
    assert "version = \"" + version + "\"" == "version" + " = " + value;
  }

  lemma VersionKeyIsPlain()
    ensures PlainKey("version")
  {
  }

  /** The rewritten line selects the version. */
  lemma NewLineReads(line: string, version: string, newline: string)
    requires ValidVersion(version) && AllSpace(newline)
    ensures Meaning(NewLine(line, version, newline)) == "version = \"" + version + "\""
  {
    var pad, blanks, comment := NewLineShape(line, version, newline);
    SelectionIsClosed(version);
    MeaningOfCore(pad, "version = \"" + version + "\"", blanks, comment, newline);
  }

  lemma SelectionItem(version: string)
    requires ValidVersion(version)
    ensures ItemOf("version = \"" + version + "\"") == Assign("version", "\"" + version + "\"")
  {
    var value := "\"" + version + "\"";
    assert "version = \"" + version + "\"" == "version" + " = " + value;
    AssignOfRendered("version", value);
  }

  lemma NewLineItem(line: string, version: string, newline: string)
    requires ValidVersion(version) && AllSpace(newline)
    requires FitsScanner(NewLine(line, version, newline))
    ensures Read(NewLine(line, version, newline)) == Assign("version", "\"" + version + "\"")
  {
    MeaningOfToken(NewLine(line, version, newline));
    NewLineReads(line, version, newline);
    SelectionItem(version);
  }

  /** The item of a rendered `key = value` line. */
  lemma AssignOfRendered(key: string, value: string)
    requires PlainKey(key) && Trimmed(value)
    ensures ItemOf(key + " = " + value) == Assign(key, value)
  {
    RenderedKey(key, value);
    RenderedParts(key, value);
  }

  // ---------------------------------------------------------------- the editor's tests

  /** The text before the comment opens the trimmed line. */
  lemma TrimKeepsMeaning(token: string)
    requires Meaning(token) != ""
    ensures Meaning(token) <= Trim(token) && Trimmed(Meaning(token))
  {
    var stripped := StripComment(token);
    var i, j := TrimSplit(stripped);
    var meaning, after := stripped[i..j], token[j..];
    assert token == token[..i] + (meaning + after);
    assert token[..i] == stripped[..i];
    TrimLeftPad(token[..i], meaning + after);
    PrefixSurvivesTrim(meaning, after);
  }

  lemma PrefixSurvivesTrim(word: string, after: string)
    requires word != "" && Trimmed(word)
    ensures TrimLeft(word + after) == word + after && word <= TrimRight(word + after)
  {
    var k := TrimRightSplit(word + after);
    assert (word + after)[|word| - 1] == word[|word| - 1];
    LastNonSpace(word + after, |word| - 1, k);
    assert (word + after)[..k][..|word|] == word;
  }

  lemma SameKey(meaning: string, trim: string)
    requires meaning <= trim && IndexOf(meaning, '=') < |meaning|
    ensures IndexOf(trim, '=') == IndexOf(meaning, '=')
    ensures trim[..IndexOf(trim, '=')] == meaning[..IndexOf(meaning, '=')]
  {
    SameIndex(meaning, trim, '=');
  }

  lemma SameIndex(a: string, b: string, c: char)
    requires a <= b && IndexOf(a, c) < |a|
    ensures IndexOf(b, c) == IndexOf(a, c) && b[..IndexOf(a, c)] == a[..IndexOf(a, c)]
  {
    var i := IndexOf(a, c);
    assert b[i] == c && forall m :: 0 <= m < i ==> b[m] == a[m];
  }

  /** A key stands at the start of its line. */
  lemma KeyPrefix(meaning: string, eq: nat, key: string)
    requires eq <= |meaning| && Trimmed(meaning) && Trim(meaning[..eq]) == key && key != ""
    ensures key <= meaning
  {
    var i, j := TrimSplit(meaning[..eq]);
    FirstOfSpace(meaning[..eq], i);
    assert meaning[..eq][i..j] == meaning[i..j];
  }

  /** On a line the parser reads as an assignment the editor's key test is the parser's. */
  lemma VersionLineIsAssign(raw: string)
    requires FitsScanner(raw)
    ensures Read(raw).Assign? ==> (IsVersionLine(ScanToken(raw)) <==> Read(raw).key == "version")
    ensures Read(raw).Blank? || ParseSectionHeader(raw).Section? ==> !IsVersionLine(ScanToken(raw))
  {
    MeaningOfToken(raw);
    var token := ScanToken(raw);
    if Meaning(token) == "" {
      BlankMeaning(token);
    } else {
      TrimKeepsMeaning(token);
      if Read(raw).Assign? {
        var meaning := Meaning(token);
        SameKey(meaning, Trim(token));
        if Trim(meaning[..IndexOf(meaning, '=')]) == "version" { KeyPrefix(meaning, IndexOf(meaning, '='), "version"); }
      }
    }
  }

  /** A line that says nothing starts, after white space, with a comment or not at all. */
  lemma BlankTrim(token: string)
    requires Meaning(token) == ""
    ensures Trim(token) == "" || Trim(token)[0] == '#'
  {
    var at := CommentAt(Plain, token);
    var i, j := TrimSplit(StripComment(token));
    assert StripComment(token) == StripComment(token)[..i] + StripComment(token)[i..];
    assert AllSpace(token[..at]) by {
      forall k | 0 <= k < at ensures IsSpace(token[k]) {
        assert k < i ==> IsSpace(StripComment(token)[..i][k]);
        assert k >= j ==> IsSpace(StripComment(token)[j..][k - j]);
      }
    }
    CommentStops(Plain, token);
    assert token == token[..at] + token[at..];
    TrimLeftPad(token[..at], token[at..]);
    var k := TrimRightSplit(TrimLeft(token));
  }

  lemma BlankMeaning(token: string)
    requires Meaning(token) == ""
    ensures !IsVersionLine(token)
  {
    BlankTrim(token);
  }

  lemma NamedSection(section: string, family: string)
    requires ValidToolName(family) && EqualFold(section, DEFAULTS + family)
    ensures !(TOOLS <= section)
    ensures DEFAULTS <= section ==>
              Lower(Trim(section[|DEFAULTS|..])) == family || !ValidToolName(Lower(Trim(section[|DEFAULTS|..])))
  {
    var rest := section[|DEFAULTS|..];
    assert FoldChar(section[0]) == FoldChar((DEFAULTS + family)[0]) == 'd';
    if DEFAULTS <= section {
      forall i | 0 <= i < |rest| ensures FoldChar(rest[i]) == family[i] && NameChar(family[i]) {
        assert section[i + |DEFAULTS|] == rest[i] && (DEFAULTS + family)[i + |DEFAULTS|] == family[i];
      }
      FoldedName(rest, family);
    }
  }

  lemma FoldedName(rest: string, family: string)
    requires |rest| == |family| && forall i :: 0 <= i < |rest| ==> FoldChar(rest[i]) == family[i] && NameChar(family[i])
    ensures Trim(rest) == rest
    ensures Lower(rest) == family || !ValidToolName(Lower(rest))
  {
    assert forall i :: 0 <= i < |rest| ==> !IsSpace(rest[i]);
    TrimTrimmed(rest);
    if ValidToolName(Lower(rest)) {
      forall i | 0 <= i < |rest| ensures Lower(rest)[i] == family[i] {
        assert NameChar(Lower(rest)[i]);
      }
      assert Lower(rest) == family;
    }
  }

  /** A spelled header is the family's header to the parser, if the parser accepts it. */
  lemma NamedHeader(raw: string, family: string)
    requires FitsScanner(raw) && ValidToolName(family) && NamesFamily(raw, family)
    ensures Read(raw) == OtherHeader || Read(raw).FamilyHeader?
    ensures Read(raw).FamilyHeader? ==> Read(raw).family == family || !ValidToolName(Read(raw).family)
  {
    ReadHeader(raw);
    NamedSection(ParseSectionHeader(raw).name, family);
  }

  // ---------------------------------------------------------------- the line scan

  /** The editor's flags, with what a reader may ask about the lines so far: was a header
      spelled as the family's, and did a rewritten line outgrow the scanner. */
  datatype Scan = Scan(inFamily: bool, named: bool, replaced: bool, overflow: bool)

  const Begin := Scan(false, false, false, false)

  predicate Replaces(scan: Scan, raw: string, family: string) {
    InFamilyAfter(scan.inFamily, raw, family) && IsVersionLine(ScanToken(raw))
  }

  function ScanAfter(scan: Scan, raw: string, family: string, version: string, newline: string): Scan {
    Scan(
      InFamilyAfter(scan.inFamily, raw, family),
      scan.named || NamesFamily(raw, family),
      scan.replaced || Replaces(scan, raw, family),
      scan.overflow || (Replaces(scan, raw, family) && !FitsScanner(NewLine(ScanToken(raw), version, newline))))
  }

  function ScanOf(lines: seq<string>, family: string, version: string, newline: string): Scan {
    if lines == [] then Begin
    else ScanAfter(ScanOf(lines[..|lines| - 1], family, version, newline), lines[|lines| - 1], family, version, newline)
  }

  function Edited(lines: seq<string>, family: string, version: string, newline: string): (out: seq<string>)
    ensures |out| == |lines|
  {
    if lines == [] then []
    else
      var front, raw := lines[..|lines| - 1], lines[|lines| - 1];
      Edited(front, family, version, newline) +
      [if Replaces(ScanOf(front, family, version, newline), raw, family)
       then NewLine(ScanToken(raw), version, newline) else raw]
  }

  /** The parser on the old text, the parser on the new text, and the editor's flags. */
  predicate Tracks(p: State, q: State, scan: Scan, family: string, version: string) {
    && p.Reading?
    && (scan.inFamily <==> scan.named && p.at == InDefault(family))
    && (scan.named ==> family in p.defaults)
    && (scan.named ==> (scan.replaced <==> p.defaults[family] != ""))
    && (scan.replaced ==> scan.named)
    && q == if scan.replaced then p.(defaults := p.defaults[family := version]) else p
  }

  /** What the tests on one raw line say about its item. */
  predicate Consistent(item: Item, header: bool, names: bool, isVersion: bool, family: string) {
    && (header <==> item.ToolHeader? || item.FamilyHeader?)
    && (names ==> item == FamilyHeader(family))
    && (item.Assign? ==> (isVersion <==> item.key == "version"))
    && (!item.Assign? ==> !isVersion)
  }

  lemma TrackStep(p: State, q: State, scan: Scan, item: Item, header: bool, names: bool, isVersion: bool,
                  family: string, version: string, selection: string)
    requires Tracks(p, q, scan, family, version) && Consistent(item, header, names, isVersion, family)
    requires Step(p, item).Reading? && version != "" && ParseQuoted(selection) == Some(version) && ValidVersion(version)
    ensures var inFamily := if header then names else scan.inFamily;
            var edits := inFamily && isVersion;
            Tracks(Step(p, item), Step(q, if edits then Assign("version", selection) else item),
                   Scan(inFamily, scan.named || names, scan.replaced || edits, scan.overflow), family, version)
  {
    var inFamily := if header then names else scan.inFamily;
    if inFamily && isVersion {
      TrackEdit(p, q, scan, item.value, family, version, selection);
    } else {
      TrackCopy(p, q, scan, item, header, names, isVersion, family, version);
    }
  }

  /** The rewritten line: the only one of its section, or the old text would not parse. */
  lemma TrackEdit(p: State, q: State, scan: Scan, value: string, family: string, version: string, selection: string)
    requires Tracks(p, q, scan, family, version) && scan.inFamily
    requires Step(p, Assign("version", value)).Reading?
    requires version != "" && ParseQuoted(selection) == Some(version) && ValidVersion(version)
    ensures Tracks(Step(p, Assign("version", value)), Step(q, Assign("version", selection)),
                   scan.(replaced := true), family, version)
  {
    assert p.defaults[family] == "";
    assert !scan.replaced;
    var v := ParseQuoted(value).value;
    assert p.defaults[family := v][family := version] == p.defaults[family := version];
  }

  lemma TrackCopy(p: State, q: State, scan: Scan, item: Item, header: bool, names: bool, isVersion: bool,
                  family: string, version: string)
    requires Tracks(p, q, scan, family, version) && Consistent(item, header, names, isVersion, family)
    requires Step(p, item).Reading?
    requires !((if header then names else scan.inFamily) && isVersion)
    ensures Tracks(Step(p, item), Step(q, item),
                   Scan(if header then names else scan.inFamily, scan.named || names, scan.replaced, scan.overflow),
                   family, version)
  {
    match item {
      case ToolHeader(name) =>
      case FamilyHeader(f) =>
        if scan.replaced { assert p.defaults[f := ""][family := version] == p.defaults[family := version][f := ""]; }
      case Assign(key, value) =>
        if p.at.InDefault? && scan.replaced && p.at.family != family {
          var f := p.at.family;
          var v := ParseQuoted(value).value;
          assert p.defaults[f := v][family := version] == p.defaults[family := version][f := v];
        }
      case _ =>
    }
  }

  lemma RawConsistent(p: State, raw: string, family: string)
    requires p.Reading? && Step(p, Read(raw)).Reading? && ValidToolName(family)
    ensures FitsScanner(raw)
    ensures Consistent(Read(raw), ParseSectionHeader(raw).Section?, NamesFamily(raw, family),
                       IsVersionLine(ScanToken(raw)), family)
  {
    ReadHeader(raw);
    VersionLineIsAssign(raw);
    if NamesFamily(raw, family) { NamedHeader(raw, family); }
  }

  lemma {:induction false} EditedTracks(lines: seq<string>, family: string, version: string, newline: string)
    requires ValidToolName(family) && ValidVersion(version) && AllSpace(newline)
    requires Run(Start, Items(lines)).Reading?
    ensures var scan := ScanOf(lines, family, version, newline);
            var q := Run(Start, Items(Edited(lines, family, version, newline)));
            if scan.overflow then q == Rejected(LineTooLong)
            else Tracks(Run(Start, Items(lines)), q, scan, family, version)
    decreases |lines|
  {
    if lines != [] {
      var k := |lines| - 1;
      var front, raw := lines[..k], lines[k];
      var scan := ScanOf(front, family, version, newline);
      assert Items(lines)[..k] == Items(front) && Items(lines)[..k + 1] == Items(lines);
      RunPrefix(Start, Items(lines), k);
      EditedTracks(front, family, version, newline);
      var p, q := Run(Start, Items(front)), Run(Start, Items(Edited(front, family, version, newline)));
      RawConsistent(p, raw, family);
      var written := if Replaces(scan, raw, family) then NewLine(ScanToken(raw), version, newline) else raw;
      ItemsAppend(Edited(front, family, version, newline), [written]);
      assert Items([written]) == [Read(written)];
      RunAppend(Start, Items(Edited(front, family, version, newline)), [Read(written)]);
      RunOne(q, Read(written));
      if !scan.overflow {
        WrittenItem(p, q, scan, raw, family, version, newline);
      }
    }
  }

  /** One line of the induction: the written line is too long, or the parsers stay in step. */
  lemma WrittenItem(p: State, q: State, scan: Scan, raw: string, family: string, version: string, newline: string)
    requires Tracks(p, q, scan, family, version) && !scan.overflow && Step(p, Read(raw)).Reading?
    requires ValidToolName(family) && ValidVersion(version) && AllSpace(newline)
    ensures var next := ScanAfter(scan, raw, family, version, newline);
            var written := if Replaces(scan, raw, family) then NewLine(ScanToken(raw), version, newline) else raw;
            if next.overflow then Step(q, Read(written)) == Rejected(LineTooLong)
            else Tracks(Step(p, Read(raw)), Step(q, Read(written)), next, family, version)
  {
    RawConsistent(p, raw, family);
    VersionReadsBack(version);
    var selection := "\"" + version + "\"";
    TrackStep(p, q, scan, Read(raw), ParseSectionHeader(raw).Section?, NamesFamily(raw, family),
              IsVersionLine(ScanToken(raw)), family, version, selection);
    if Replaces(scan, raw, family) {
      var written := NewLine(ScanToken(raw), version, newline);
      if FitsScanner(written) { NewLineItem(ScanToken(raw), version, newline); }
    }
  }

  lemma NewLineTerminated(raw: string, version: string, newline: string)
    requires Terminated(raw) || Unterminated(raw)
    requires ValidVersion(version) && (newline == "\n" || newline == "\r\n")
    ensures Terminated(NewLine(ScanToken(raw), version, newline))
  {
    var line := ScanToken(raw);
    assert Unterminated(line);
    var pad, blanks, comment := NewLineShape(line, version, newline);
    KeptTextUnterminated(line, version);
    SelectionUnterminated(version);
    assert newline[|newline| - 1] == '\n';
  }

  /** What the rewritten line keeps of the old one. */
  lemma KeptTextUnterminated(line: string, version: string)
    requires Unterminated(line)
    ensures Unterminated(line[..|line| - |TrimBlanksLeft(line)|])
    ensures Unterminated(line[|TrimBlanksRight(StripComment(line))|..])
  {
    var k := BlanksRightSplit(StripComment(line));
    var rest := line[|TrimBlanksRight(StripComment(line))|..];
    assert forall i :: 0 <= i < |rest| ==> rest[i] == line[|line| - |rest| + i];
  }

  lemma SelectionUnterminated(version: string)
    requires ValidVersion(version)
    ensures Unterminated("version = \"" + version + "\"")
  {
    forall i | 0 <= i < |version| ensures version[i] != '\n' { assert NameChar(version[i]) || version[i] == '.'; }
  }

  lemma {:induction false} EditedTerminated(lines: seq<string>, family: string, version: string, newline: string)
    requires forall i :: 0 <= i < |lines| ==> Terminated(lines[i])
    requires ValidVersion(version) && (newline == "\n" || newline == "\r\n")
    ensures forall i :: 0 <= i < |lines| ==> Terminated(Edited(lines, family, version, newline)[i])
    decreases |lines|
  {
    if lines != [] {
      EditedTerminated(lines[..|lines| - 1], family, version, newline);
      NewLineTerminated(lines[|lines| - 1], version, newline);
    }
  }

  lemma EditedShape(lines: seq<string>, family: string, version: string, newline: string)
    requires Lineated(lines) && ValidVersion(version) && (newline == "\n" || newline == "\r\n")
    ensures Lineated(Edited(lines, family, version, newline))
  {
    if lines != [] {
      EditedTerminated(lines[..|lines| - 1], family, version, newline);
      NewLineTerminated(lines[|lines| - 1], version, newline);
    }
  }

  /** The registry the edit is asked for, when there is something to edit. */
  predicate Ready(data: string, family: string, version: string) {
    && ParseTOML(data).Ok?
    && var reg := ParseTOML(data).value;
       family in reg.defaults && version in VersionsOf(reg, family) && reg.defaults[family] != version
  }

  function NewlineOf(data: string): string {
    if Contains(data, "\r\n") then "\r\n" else "\n"
  }

  function ScanText(data: string, family: string, version: string): Scan {
    ScanOf(SplitAfter(data), family, version, NewlineOf(data))
  }

  function EditedText(data: string, family: string, version: string): string {
    Concat(Edited(SplitAfter(data), family, version, NewlineOf(data)))
  }

  lemma FamilyNames(reg: Registry, family: string)
    requires DefaultsOk(reg) && family in reg.defaults
    ensures ValidToolName(family) && reg.defaults[family] != ""
  {
    FamilyNamed(reg, family);
    var n :| n in reg.tools && HasMetadata(reg.tools[n]) && reg.tools[n].defaultFamily == family;
    assert MetadataOk(reg.schema, reg.tools.Keys, reg.tools[n]);
  }

  lemma EditedRun(lines: seq<string>, family: string, version: string, newline: string)
    requires Lineated(lines) && Run(Start, Items(lines)).Reading?
    requires ValidToolName(family) && ValidVersion(version) && (newline == "\n" || newline == "\r\n")
    ensures var scan := ScanOf(lines, family, version, newline);
            var q := Run(Start, Items(Edited(lines, family, version, newline)));
            && ParseTOML(Concat(Edited(lines, family, version, newline))) == Finish(q)
            && (scan.overflow ==> scan.replaced && scan.named)
            && (if scan.overflow then q == Rejected(LineTooLong)
                else Tracks(Run(Start, Items(lines)), q, scan, family, version))
  {
    EditedTracks(lines, family, version, newline);
    EditedShape(lines, family, version, newline);
    RunOfConcat(Edited(lines, family, version, newline));
    OverflowMeansReplaced(lines, family, version, newline);
  }

  lemma EditedParse(lines: seq<string>, p: State, reg: Registry, family: string, version: string, newline: string)
    requires Lineated(lines) && p == Run(Start, Items(lines)) && p.Reading?
    requires Finish(p) == Ok(reg) && family in p.defaults && p.defaults[family] != ""
    requires newline == "\n" || newline == "\r\n"
    requires ValidToolName(family) && ValidVersion(version) && DefaultsOk(Switch(reg, family, version))
    ensures var scan := ScanOf(lines, family, version, newline);
            && (scan.replaced <==> scan.named)
            && ParseTOML(Concat(Edited(lines, family, version, newline))) ==
               if scan.overflow then Err(LineTooLong)
               else if scan.named then Ok(Switch(reg, family, version)) else Ok(reg)
  {
    var q := Run(Start, Items(Edited(lines, family, version, newline)));
    EditedRun(lines, family, version, newline);
    FinishSwitched(p, q, ScanOf(lines, family, version, newline), family, version);
  }

  /** What being Ready gives. */
  lemma ReadyFacts(data: string, family: string, version: string)
    requires Ready(data, family, version)
    ensures var reg := ParseTOML(data).value;
            && ValidToolName(family) && ValidVersion(version) && reg.defaults[family] != ""
            && DefaultsOk(Switch(reg, family, version))
            && InvokableNames(Switch(reg, family, version)) == InvokableNames(reg)
  {
    var reg := ParseTOML(data).value;
    AcceptedDefaults(data);
    FamilyNames(reg, family);
    VersionsAgree(reg, family, version);
    SwitchKeepsDefaults(reg, family, version);
    SwitchKeepsNames(reg, family, version);
  }

  lemma SwitchParses(data: string, reg: Registry, family: string, version: string)
    requires ParseTOML(data) == Ok(reg) && family in reg.defaults && reg.defaults[family] != ""
    requires ValidToolName(family) && ValidVersion(version) && DefaultsOk(Switch(reg, family, version))
    ensures var scan := ScanText(data, family, version);
            && (scan.replaced <==> scan.named)
            && ParseTOML(EditedText(data, family, version)) ==
               if scan.overflow then Err(LineTooLong)
               else if scan.named then Ok(Switch(reg, family, version)) else Ok(reg)
  {
    var lines := SplitAfter(data);
    SplitAfterShape(data);
    EditedParse(lines, Run(Start, Items(lines)), reg, family, version, NewlineOf(data));
  }

  /** Switching a default changes exactly one thing, and no shim name. The editor finds its
      line exactly when some header is spelled as the family's, and then the only way the
      parser can refuse the edited text is that the rewritten line has outgrown the scanner. */
  lemma SwitchChangesSelection(data: string, family: string, version: string)
    requires Ready(data, family, version)
    ensures var reg := ParseTOML(data).value;
            var scan := ScanText(data, family, version);
            && (scan.replaced <==> scan.named)
            && ParseTOML(EditedText(data, family, version)) ==
               (if scan.overflow then Err(LineTooLong)
                else if scan.named then Ok(Switch(reg, family, version)) else Ok(reg))
            && InvokableNames(Switch(reg, family, version)) == InvokableNames(reg)
  {
    ReadyFacts(data, family, version);
    SwitchParses(data, ParseTOML(data).value, family, version);
  }

  lemma AcceptedDefaults(data: string)
    requires ParseTOML(data).Ok?
    ensures DefaultsOk(ParseTOML(data).value) && Run(Start, Items(SplitAfter(data))).Reading?
  {
  }

  lemma {:induction false} OverflowMeansReplaced(lines: seq<string>, family: string, version: string, newline: string)
    ensures var scan := ScanOf(lines, family, version, newline);
            && (scan.overflow ==> scan.replaced)
            && (scan.replaced ==> scan.named) && (scan.inFamily ==> scan.named)
    decreases |lines|
  {
    if lines != [] { OverflowMeansReplaced(lines[..|lines| - 1], family, version, newline); }
  }

  lemma FinishSwitched(p: State, q: State, scan: Scan, family: string, version: string)
    requires Finish(p).Ok? && family in p.defaults && p.defaults[family] != ""
    requires DefaultsOk(Switch(Finish(p).value, family, version))
    requires scan.overflow ==> scan.replaced && scan.named
    requires if scan.overflow then q == Rejected(LineTooLong) else Tracks(p, q, scan, family, version)
    ensures scan.replaced <==> scan.named
    ensures Finish(q) == if scan.overflow then Err(LineTooLong)
                         else if scan.named then Ok(Switch(Finish(p).value, family, version)) else Finish(p)
  {
  }

  // ---------------------------------------------------------------- what the edit leaves alone

  predicate AllBlanks(s: string) {
    forall i :: 0 <= i < |s| ==> IsBlankChar(s[i])
  }

  lemma {:induction false} BlanksLeftKeeps(s: string)
    ensures var k := |s| - |TrimBlanksLeft(s)|;
            AllBlanks(s[..k]) && TrimBlanksLeft(s) == s[k..] && (k < |s| ==> !IsBlankChar(s[k]))
  {
    if s != "" && IsBlankChar(s[0]) {
      BlanksLeftKeeps(s[1..]);
      var k := |s| - |TrimBlanksLeft(s)|;
      assert s[..k] == [s[0]] + s[1..][..k - 1];
    }
  }

  lemma {:induction false} BlanksRightKeeps(s: string)
    ensures var k := |TrimBlanksRight(s)|;
            AllBlanks(s[k..]) && TrimBlanksRight(s) == s[..k] && (k > 0 ==> !IsBlankChar(s[k - 1]))
  {
    if s != "" && IsBlankChar(s[|s| - 1]) {
      BlanksRightKeeps(s[..|s| - 1]);
      var k := |TrimBlanksRight(s)|;
      assert s[k..] == s[..|s| - 1][k..] + [s[|s| - 1]];
    }
  }

  /** The new line has the selection in place of what the old one said, between the same
      indentation and the same end. */
  ghost predicate Reselected(line: string, version: string, newline: string, written: string,
                             pad: string, core: string, blanks: string, comment: string) {
    && line == pad + core + blanks + comment
    && written == pad + ("version = \"" + version + "\"") + blanks + comment + newline
    && AllBlanks(pad) && AllBlanks(blanks) && (comment == "" || comment[0] == '#')
    && core != "" && !IsBlankChar(core[0]) && !IsBlankChar(core[|core| - 1])
    && Trim(core) == Meaning(line)
  }

  /** Where the indentation ends, the entry ends and the comment starts. */
  lemma LineBounds(line: string) returns (i: nat, j: nat, at: nat)
    requires Meaning(line) != ""
    ensures i == |line| - |TrimBlanksLeft(line)| && j == |TrimBlanksRight(StripComment(line))|
    ensures i < j <= at <= |line| && StripComment(line) == line[..at] && (at == |line| || line[at] == '#')
    ensures AllBlanks(line[..i]) && AllBlanks(line[j..at]) && !IsBlankChar(line[i]) && !IsBlankChar(line[j - 1])
  {
    var stripped := StripComment(line);
    at := |stripped|;
    CommentStops(Plain, line);
    BlanksLeftKeeps(line);
    BlanksRightKeeps(stripped);
    i, j := |line| - |TrimBlanksLeft(line)|, |TrimBlanksRight(stripped)|;
    var a := FirstNonSpace(stripped);
    assert stripped[a] == line[a];
    BlankWithin(line, 0, i, a);
    BlankWithin(stripped, j, at, a);
    assert stripped[j..at] == stripped[j..];
    assert line[j..at] == stripped[j..];
  }

  lemma BlankWithin(s: string, from: nat, to: nat, k: nat)
    requires from <= to <= |s| && AllBlanks(s[from..to]) && k < |s|
    ensures from <= k < to ==> IsSpace(s[k])
  {
    if from <= k < to { assert s[from..to][k - from] == s[k]; }
  }

  lemma FirstNonSpace(s: string) returns (a: nat)
    requires Trim(s) != ""
    ensures a < |s| && !IsSpace(s[a])
  {
    var b;
    a, b := TrimSplit(s);
    assert s[a..b][0] == s[a];
  }

  lemma NewLineKeeps(line: string, version: string, newline: string)
    returns (pad: string, core: string, blanks: string, comment: string)
    requires Meaning(line) != ""
    ensures Reselected(line, version, newline, NewLine(line, version, newline), pad, core, blanks, comment)
  {
    var i, j, at := LineBounds(line);
    pad, core, blanks, comment := line[..i], line[i..j], line[j..at], line[at..];
    assert line[..at] == pad + core + blanks && line == line[..at] + comment;
    BlanksAreSpace(pad);
    BlanksAreSpace(blanks);
    TrimPad(pad, core, blanks);
    Spliced(pad, "version = \"" + version + "\"", line[j..], blanks, comment, newline);
  }

  lemma Spliced(pad: string, chosen: string, rest: string, blanks: string, comment: string, newline: string)
    requires rest == blanks + comment
    ensures pad + chosen + rest + newline == pad + chosen + blanks + comment + newline
  {
    assert pad + chosen + rest == pad + chosen + blanks + comment;
  }

  lemma BlanksAreSpace(s: string)
    requires AllBlanks(s)
    ensures AllSpace(s)
  {
  }

  /** A second selection line would have been rejected, so the edit finds one. */
  lemma ReplacesOnce(p: State, scan: Scan, raw: string, family: string, version: string, q: State)
    requires Tracks(p, q, scan, family, version) && Step(p, Read(raw)).Reading? && ValidToolName(family)
    requires Replaces(scan, raw, family)
    ensures !scan.replaced && p.at == InDefault(family) && Read(raw).Assign? && Read(raw).key == "version"
  {
    RawConsistent(p, raw, family);
    var header := ParseSectionHeader(raw);
    assert !header.Section?;
    SelectedTwice(p, Read(raw), family);
  }

  lemma SelectedTwice(p: State, item: Item, family: string)
    requires p.Reading? && p.at == InDefault(family) && family in p.defaults
    requires item.Assign? && item.key == "version" && Step(p, item).Reading?
    ensures p.defaults[family] == ""
  {
  }

  /** The line the edit rewrites is the one the parser takes the selection from. */
  ghost predicate SelectionLine(lines: seq<string>, i: nat, family: string) {
    && i < |lines| && Read(lines[i]).Assign? && Read(lines[i]).key == "version"
    && Run(Start, Items(lines[..i])).Reading? && Run(Start, Items(lines[..i])).at == InDefault(family)
  }

  /** Only the selection line `i` differs, and it reads `written`. */
  ghost predicate OnlyAt(lines: seq<string>, edited: seq<string>, i: nat, written: string, family: string) {
    SelectionLine(lines, i, family) && edited == lines[i := written]
  }

  lemma OnlyAtExtends(front: seq<string>, edited: seq<string>, i: nat, written: string, raw: string, family: string)
    requires OnlyAt(front, edited, i, written, family)
    ensures OnlyAt(front + [raw], edited + [raw], i, written, family)
  {
    var longer := front + [raw];
    assert longer[..i] == front[..i] && longer[i] == front[i];
    assert longer[i := written] == front[i := written] + [raw];
  }

  /** The new text of the selection line `i`. */
  function Rewrite(lines: seq<string>, i: nat, version: string, newline: string): string {
    if i < |lines| then NewLine(ScanToken(lines[i]), version, newline) else ""
  }

  lemma OnlyAtLast(front: seq<string>, raw: string, written: string, p: State, family: string)
    requires p == Run(Start, Items(front)) && p.Reading? && p.at == InDefault(family)
    requires Read(raw).Assign? && Read(raw).key == "version"
    ensures OnlyAt(front + [raw], front + [written], |front|, written, family)
  {
    assert (front + [raw])[..|front|] == front;
  }

  lemma EditedExtends(front: seq<string>, raw: string, family: string, version: string, newline: string)
    ensures var scan := ScanOf(front, family, version, newline);
            && ScanOf(front + [raw], family, version, newline) == ScanAfter(scan, raw, family, version, newline)
            && Edited(front + [raw], family, version, newline) ==
               Edited(front, family, version, newline)
               + [if Replaces(scan, raw, family) then NewLine(ScanToken(raw), version, newline) else raw]
  {
    assert (front + [raw])[..|front|] == front;
  }

  lemma {:induction false} OneLineChanges(lines: seq<string>, family: string, version: string, newline: string)
    returns (i: nat)
    requires ValidToolName(family) && ValidVersion(version) && AllSpace(newline)
    requires Run(Start, Items(lines)).Reading? && !ScanOf(lines, family, version, newline).overflow
    ensures if ScanOf(lines, family, version, newline).replaced
            then OnlyAt(lines, Edited(lines, family, version, newline), i, Rewrite(lines, i, version, newline), family)
            else Edited(lines, family, version, newline) == lines
    decreases |lines|
  {
    i := 0;
    if lines != [] {
      var k := |lines| - 1;
      var front, raw := lines[..k], lines[k];
      assert lines == front + [raw];
      FrontRuns(lines, front, raw);
      EditedExtends(front, raw, family, version, newline);
      i := OneLineChanges(front, family, version, newline);
      i := OneMoreLine(front, raw, family, version, newline, i);
    }
  }

  lemma FrontRuns(lines: seq<string>, front: seq<string>, raw: string)
    requires lines == front + [raw] && Run(Start, Items(lines)).Reading?
    ensures Run(Start, Items(front)).Reading? && Step(Run(Start, Items(front)), Read(raw)).Reading?
  {
    RunPrefix(Start, Items(lines), |front|);
    assert Items(lines)[..|front|] == Items(front) && Items(lines)[|front|] == Read(raw);
    assert Items(lines)[..|front| + 1] == Items(lines);
  }

  lemma OneMoreLine(front: seq<string>, raw: string, family: string, version: string, newline: string, before: nat)
    returns (i: nat)
    requires ValidToolName(family) && ValidVersion(version) && AllSpace(newline)
    requires Run(Start, Items(front)).Reading? && Step(Run(Start, Items(front)), Read(raw)).Reading?
    requires !ScanOf(front, family, version, newline).overflow
    requires if ScanOf(front, family, version, newline).replaced
             then OnlyAt(front, Edited(front, family, version, newline), before, Rewrite(front, before, version, newline), family)
             else Edited(front, family, version, newline) == front
    ensures var scan := ScanOf(front, family, version, newline);
            var written := if Replaces(scan, raw, family) then NewLine(ScanToken(raw), version, newline) else raw;
            var edited := Edited(front, family, version, newline) + [written];
            if scan.replaced || Replaces(scan, raw, family)
            then OnlyAt(front + [raw], edited, i, Rewrite(front + [raw], i, version, newline), family)
            else edited == front + [raw]
  {
    var p, scan := Run(Start, Items(front)), ScanOf(front, family, version, newline);
    var edited := Edited(front, family, version, newline);
    EditedTracks(front, family, version, newline);
    i := before;
    if Replaces(scan, raw, family) {
      ReplacesOnce(p, scan, raw, family, version, Run(Start, Items(edited)));
      OnlyAtLast(front, raw, NewLine(ScanToken(raw), version, newline), p, family);
      i := |front|;
    } else if scan.replaced {
      OnlyAtExtends(front, edited, before, Rewrite(front, before, version, newline), raw, family);
    }
  }

  /** The edited text is the old one with the selection line rewritten: every other byte stays,
      and so do that line's indentation and comment. */
  lemma EditTouchesOneLine(data: string, family: string, version: string)
    returns (i: nat, pad: string, core: string, blanks: string, comment: string, written: string)
    requires Ready(data, family, version)
    requires ScanText(data, family, version).named && !ScanText(data, family, version).overflow
    ensures SelectionLine(SplitAfter(data), i, family)
    ensures EditedText(data, family, version) == Concat(SplitAfter(data)[i := written])
    ensures Reselected(ScanToken(SplitAfter(data)[i]), version, NewlineOf(data), written, pad, core, blanks, comment)
  {
    i := OneLineOfText(data, family, version);
    pad, core, blanks, comment := ReselectedAt(SplitAfter(data), i, family, version, NewlineOf(data));
    written := Rewrite(SplitAfter(data), i, version, NewlineOf(data));
  }

  lemma OneLineOfText(data: string, family: string, version: string) returns (i: nat)
    requires Ready(data, family, version)
    requires ScanText(data, family, version).named && !ScanText(data, family, version).overflow
    ensures OnlyAt(SplitAfter(data), Edited(SplitAfter(data), family, version, NewlineOf(data)), i,
                   Rewrite(SplitAfter(data), i, version, NewlineOf(data)), family)
  {
    ReadyVersion(data, family, version);
    NewlineIsSpace(data);
    ReadyFamily(data, family, version);
    SwitchChangesSelection(data, family, version);
    i := OneLineChanges(SplitAfter(data), family, version, NewlineOf(data));
  }

  lemma ReadyVersion(data: string, family: string, version: string)
    requires Ready(data, family, version)
    ensures ValidVersion(version)
  {
    ReadyFacts(data, family, version);
  }

  lemma NewlineIsSpace(data: string)
    ensures AllSpace(NewlineOf(data))
  {
  }

  lemma ReselectedAt(lines: seq<string>, i: nat, family: string, version: string, newline: string)
    returns (pad: string, core: string, blanks: string, comment: string)
    requires SelectionLine(lines, i, family)
    ensures Reselected(ScanToken(lines[i]), version, newline, Rewrite(lines, i, version, newline), pad, core, blanks, comment)
  {
    SaysSomething(lines[i]);
    pad, core, blanks, comment := NewLineKeeps(ScanToken(lines[i]), version, newline);
  }

  lemma SaysSomething(raw: string)
    requires Read(raw).Assign?
    ensures Meaning(ScanToken(raw)) != ""
  {
    MeaningOfToken(raw);
  }

  /** The line loop of SetDefaultVersion. */
  method EditLines(lines: seq<string>, family: string, version: string, newline: string)
    returns (out: seq<string>, replaced: bool)
    requires Run(Start, Items(lines)).Reading?
    ensures out == Edited(lines, family, version, newline)
    ensures replaced == ScanOf(lines, family, version, newline).replaced
  {
    out := [];
    var inFamily := false;
    replaced := false;
    for lineNo := 0 to |lines|
      invariant out == Edited(lines[..lineNo], family, version, newline)
      invariant inFamily == ScanOf(lines[..lineNo], family, version, newline).inFamily
      invariant replaced == ScanOf(lines[..lineNo], family, version, newline).replaced
    {
      var raw := lines[lineNo];
      assert lines[..lineNo + 1][..lineNo] == lines[..lineNo];
      var written: string, edited: bool;
      inFamily, edited, written := EditLine(inFamily, raw, family, version, newline);
      replaced := replaced || edited;
      out := out + [written];
    }
    assert lines[..|lines|] == lines;
  }

  /** The body of that loop. A malformed header, which would end it, cannot occur in text
      that has just been parsed. */
  method EditLine(before: bool, raw: string, family: string, version: string, newline: string)
    returns (inFamily: bool, edited: bool, written: string)
    ensures inFamily == InFamilyAfter(before, raw, family)
    ensures edited == (inFamily && IsVersionLine(ScanToken(raw)))
    ensures written == if edited then NewLine(ScanToken(raw), version, newline) else raw
  {
    var line := ScanToken(raw);
    var trim := Trim(line);
    inFamily := before;
    MeaningOfToken(raw);
    match ParseSectionHeader(line) {
      case Section(section) => inFamily := EqualFold(section, DEFAULTS + family);
      case _ =>
    }
    if inFamily && "version" <= trim {
      var key := Trim(trim[..IndexOf(trim, '=')]);
      if key == "version" {
        var valueEnd := |TrimBlanksRight(StripComment(line))|;
        var indentEnd := |line| - |TrimBlanksLeft(line)|;
        written := line[..indentEnd] + ("version = \"" + version + "\"") + line[valueEnd..] + newline;
        return inFamily, true, written;
      }
    }
    return inFamily, false, raw;
  }

  /** What SetDefaultVersion does with a family it knows and another version it knows. */
  predicate Switched(data: string, reg: Registry, family: string, version: string, validate: Registry -> bool, r: Outcome) {
    var scan := ScanText(data, family, version);
    if !scan.named then r == NoWritableKey
    else if scan.overflow then r == Refused(LineTooLong)
    else if !validate(Switch(reg, family, version)) then r == RefusedByValidator
    else r == Rewritten(EditedText(data, family, version)) && ParseTOML(r.text) == Ok(Switch(reg, family, version))
  }

  method EditAndCheck(data: string, ghost reg: Registry, family: string, version: string, validate: Registry -> bool)
    returns (r: Outcome)
    requires Ready(data, family, version) && ParseTOML(data) == Ok(reg)
    ensures Switched(data, reg, family, version, validate, r)
  {
    SwitchChangesSelection(data, family, version);
    AcceptedDefaults(data);
    var out, replaced := EditLines(SplitAfter(data), family, version, NewlineOf(data));
    if !replaced { return NoWritableKey; }
    var updated := ParseTOML(Concat(out));
    if updated.Err? { return Refused(updated.error); }
    if !validate(updated.value) { return RefusedByValidator; }
    return Rewritten(Concat(out));
  }

  /** SetDefaultVersion, from the bytes read to the bytes handed to the atomic writer. */
  method SetDefaultVersion(data: string, requestedFamily: string, requestedVersion: string, validate: Registry -> bool)
    returns (r: Outcome)
    ensures var family, version := Lower(requestedFamily), Lower(requestedVersion);
            match ParseTOML(data)
            case Err(reason) => r == Unreadable(reason)
            case Ok(reg) =>
              if family !in reg.defaults then r == UnknownFamily
              else if version !in VersionsOf(reg, family) then r == UnavailableVersion
              else if reg.defaults[family] == version then r == Unchanged
              else Switched(data, reg, family, version, validate, r)
  {
    var family, version := Lower(requestedFamily), Lower(requestedVersion);
    var parsed := ParseTOML(data);
    if parsed.Err? { return Unreadable(parsed.error); }
    var info := DefaultInfo(parsed.value, family);
    LowerIdempotent(requestedFamily);
    if info.None? { return UnknownFamily; }
    if version !in info.value.versions { return UnavailableVersion; }
    if info.value.selected == version { return Unchanged; }
    r := EditAndCheck(data, parsed.value, family, version, validate);
  }

  // ---------------------------------------------------------------- the two ways it can fail

  function SpacedSection(family: string): string { DEFAULTS + (" " + family) }

  lemma SpacedHeader(family: string)
    requires ValidToolName(family)
    ensures ParseSectionHeader("[" + SpacedSection(family) + "]") == Section(SpacedSection(family))
    ensures FitsScanner("[" + SpacedSection(family) + "]") <==> |family| + 12 < MAX_SCAN_TOKEN
  {
    var section := SpacedSection(family);
    var raw := "[" + section + "]";
    SpacedChars(family);
    PlainText(raw);
    assert StripComment(raw) == raw && WithoutNewline(raw) == raw;
    TrimTrimmed(raw);
    TrimTrimmed(section);
    assert raw[1..|raw| - 1] == section;
    Utf8LengthAscii(raw);
  }

  lemma SpacedChars(family: string)
    requires ValidToolName(family)
    ensures var section := SpacedSection(family);
            && Trimmed(section)
            && forall i :: 0 <= i < |section| ==>
                 section[i] as int < 0x80 && section[i] != '\n' && section[i] != '\r'
                 && section[i] != '"' && section[i] != '#' && section[i] != '[' && section[i] != ']'
  {
    var section := SpacedSection(family);
    assert forall i :: 0 <= i < |family| ==> NameChar(family[i]);
    assert forall i :: 10 <= i < |section| ==> section[i] == family[i - 10];
  }

  lemma SpacedName(family: string)
    requires ValidToolName(family)
    ensures Lower(Trim(" " + family)) == family
  {
    assert " " + family == " " + family + "";
    assert NameChar(family[0]) && NameChar(family[|family| - 1]);
    TrimCore(" ", family, "");
    forall i | 0 <= i < |family| ensures LowerChar(family[i]) == family[i] { assert NameChar(family[i]); }
    LowerFixed(family);
  }

  lemma SpacedFamily(family: string)
    requires ValidToolName(family)
    ensures HeaderItem(SpacedSection(family)) == FamilyHeader(family)
  {
    var section := SpacedSection(family);
    assert section[|DEFAULTS|..] == " " + family;
    SpacedName(family);
    assert section[0] == 'd' && TOOLS[0] == 't';
  }

  /** The parser accepts a space after the prefix of a family header; the editor then does
      not recognise the table and finds no writable key. */
  lemma SpacedHeaderIsNotNamed(family: string)
    requires ValidToolName(family) && |family| < 1000
    ensures var raw := "[" + SpacedSection(family) + "]";
            Read(raw) == FamilyHeader(family) && !NamesFamily(raw, family)
  {
    var raw := "[" + SpacedSection(family) + "]";
    SpacedHeader(family);
    SpacedFamily(family);
    SectionReads(raw, SpacedSection(family));
    assert |SpacedSection(family)| != |DEFAULTS + family|;
  }

  lemma SectionReads(raw: string, section: string)
    requires FitsScanner(raw) && ParseSectionHeader(raw) == Section(section)
    ensures Read(raw) == HeaderItem(section)
  {
    ReadHeader(raw);
  }

  /** A closed line without blanks at its ends, before a comment. */
  lemma BeforeComment(head: string, comment: string)
    requires ClosedValue(head) && comment != "" && comment[0] == '#'
    requires !IsBlankChar(head[0]) && !IsBlankChar(head[|head| - 1])
    ensures StripComment(head + comment) == head
    ensures TrimBlanksRight(head) == head && TrimBlanksLeft(head + comment) == head + comment
  {
    CommentAppend(Plain, head, comment);
    assert (head + comment)[..|head|] == head;
  }

  function TightLine(version: string): string {
    "version=" + ("\"" + version + "\"")
  }

  lemma TightIsClosed(version: string)
    requires ValidVersion(version)
    ensures ClosedValue(TightLine(version))
  {
    VersionReadsBack(version);
    PrefixIsPlain();
    ClosedJoin("version=", "\"" + version + "\"");
  }

  lemma PrefixIsPlain()
    ensures '"' !in "version=" && '#' !in "version=" && !IsSpace("version="[0])
  {
  }

  /** An ASCII line without a terminator fits by its length. */
  lemma FitsByLength(s: string)
    requires Unterminated(s) && forall i :: 0 <= i < |s| ==> (s[i] as int) < 0x80
    ensures FitsScanner(s) <==> |s| < MAX_SCAN_TOKEN
    ensures FitsScanner(s + "\n") <==> |s| < MAX_SCAN_TOKEN
  {
    if s != "" { assert s[|s| - 1] != '\n'; }
    assert WithoutNewline(s) == s && WithoutNewline(s + "\n") == s;
    Utf8LengthAscii(s);
  }

  predicate Ascii(s: string) {
    forall i :: 0 <= i < |s| ==> (s[i] as int) < 0x80 && s[i] != '\n' && s[i] != '\r'
  }

  lemma VersionIsAscii(version: string)
    requires ValidVersion(version)
    ensures Ascii(version)
  {
    forall i | 0 <= i < |version| ensures (version[i] as int) < 0x80 && version[i] != '\n' && version[i] != '\r' {
      assert NameChar(version[i]) || version[i] == '.';
    }
  }

  lemma NormalisedLine(head: string, comment: string, version: string, newline: string)
    requires ClosedValue(head) && comment != "" && comment[0] == '#'
    requires !IsBlankChar(head[0]) && !IsBlankChar(head[|head| - 1])
    ensures NewLine(head + comment, version, newline) == ("version = \"" + version + "\"") + comment + newline
  {
    BeforeComment(head, comment);
    assert (head + comment)[|head|..] == comment;
  }

  /** A selection line that just fits the scanner outgrows it when the editor normalises the
      spaces around its equals sign. */
  lemma LongCommentOverflows(current: string, version: string, comment: string)
    requires ValidVersion(current) && ValidVersion(version) && |version| == |current|
    requires comment != "" && comment[0] == '#' && |comment| == 65525 - |current| && Ascii(comment)
    ensures var raw := TightLine(current) + comment;
            FitsScanner(raw) && !FitsScanner(NewLine(ScanToken(raw), version, "\n"))
            && !FitsScanner(NewLine(ScanToken(raw), version, "\r\n"))
  {
    TightFits(current, comment);
    TightIsClosed(current);
    NormalisedLine(TightLine(current), comment, version, "\n");
    NormalisedLine(TightLine(current), comment, version, "\r\n");
    LooseOverflows(version, comment);
  }

  lemma TightFits(current: string, comment: string)
    requires ValidVersion(current) && |comment| == 65525 - |current| && comment != "" && Ascii(comment)
    ensures var raw := TightLine(current) + comment; FitsScanner(raw) && ScanToken(raw) == raw
  {
    var raw := TightLine(current) + comment;
    TightIsAscii(current);
    FitsByLength(raw);
    AsciiToken(raw);
  }

  lemma TightIsAscii(current: string)
    requires ValidVersion(current)
    ensures Ascii(TightLine(current)) && |TightLine(current)| == 10 + |current|
  {
    VersionIsAscii(current);
  }

  lemma AsciiToken(s: string)
    requires Ascii(s)
    ensures ScanToken(s) == s && Unterminated(s)
  {
    assert s == "" || (s[|s| - 1] != '\n' && s[|s| - 1] != '\r');
  }

  lemma LooseOverflows(version: string, comment: string)
    requires ValidVersion(version) && |comment| == 65525 - |version| && Ascii(comment)
    ensures !FitsScanner(("version = \"" + version + "\"") + comment + "\n")
    ensures !FitsScanner(("version = \"" + version + "\"") + comment + "\r\n")
  {
    VersionIsAscii(version);
    var longer := ("version = \"" + version + "\"") + comment;
    FitsByLength(longer);
    CarriageReturnCounts(longer);
  }

  lemma CarriageReturnCounts(s: string)
    requires Unterminated(s) && forall i :: 0 <= i < |s| ==> (s[i] as int) < 0x80
    ensures FitsScanner(s + "\r\n") ==> |s| + 1 < MAX_SCAN_TOKEN
  {
    var whole := s + "\r";
    assert s + "\r\n" == whole + "\n";
    FitsByLength(whole);
  }

  // -------------------- a whole registry the switch is refused on

  predicate EndsLine(raw: string) {
    raw != "" && raw[|raw| - 1] == '\n'
  }

  /** The family's header, respelled with a space after the prefix; other lines stay. */
  function Respell(raw: string, family: string): string {
    if Read(raw) == FamilyHeader(family)
    then "[" + SpacedSection(family) + "]" + (if EndsLine(raw) then "\n" else "")
    else raw
  }

  function RespellAll(lines: seq<string>, family: string): (out: seq<string>)
    ensures |out| == |lines|
  {
    seq(|lines|, i requires 0 <= i < |lines| => Respell(lines[i], family))
  }

  lemma SpacedIsPlain(family: string)
    requires ValidToolName(family)
    ensures Unterminated("[" + SpacedSection(family) + "]")
  {
    forall i | 0 <= i < |family| ensures family[i] != '\n' { assert NameChar(family[i]); }
  }

  /** The respelled header is the family's to the parser, and not the editor's. */
  lemma SpacedLine(family: string, end: string)
    requires ValidToolName(family) && |family| < 1000 && (end == "" || end == "\n")
    ensures var raw := "[" + SpacedSection(family) + "]" + end;
            Read(raw) == FamilyHeader(family) && !NamesFamily(raw, family)
  {
    var bare := "[" + SpacedSection(family) + "]";
    SpacedHeaderIsNotNamed(family);
    SpacedHeader(family);
    if end == "" {
      assert bare + end == bare;
    } else {
      SpacedIsPlain(family);
      LineEndIsNothing(bare);
    }
  }

  lemma LineEndIsNothing(bare: string)
    requires Unterminated(bare) && FitsScanner(bare)
    ensures Read(bare + "\n") == Read(bare) && ParseSectionHeader(bare + "\n") == ParseSectionHeader(bare)
  {
    MeaningOfSuffix(bare, "\n");
    MeaningOfToken(bare + "\n");
    MeaningOfToken(bare);
    if bare != "" { assert bare[|bare| - 1] != '\n'; }
    assert WithoutNewline(bare + "\n") == bare == WithoutNewline(bare);
  }

  lemma RespelledReads(lines: seq<string>, family: string)
    requires ValidToolName(family) && |family| < 1000
    ensures Items(RespellAll(lines, family)) == Items(lines)
  {
    forall i | 0 <= i < |lines| ensures Read(RespellAll(lines, family)[i]) == Read(lines[i]) {
      SpacedLine(family, "");
      SpacedLine(family, "\n");
      assert "[" + SpacedSection(family) + "]" + "" == "[" + SpacedSection(family) + "]";
    }
  }

  lemma RespellShape(raw: string, family: string)
    requires ValidToolName(family)
    ensures Terminated(raw) ==> Terminated(Respell(raw, family))
    ensures Unterminated(raw) ==> Unterminated(Respell(raw, family))
  {
    SpacedIsPlain(family);
  }

  /** Cutting the respelled text gives its lines back. */
  lemma RespelledLines(data: string, family: string)
    requires ValidToolName(family)
    ensures var lines := RespellAll(SplitAfter(data), family); Lineated(lines) && SplitAfter(Concat(lines)) == lines
  {
    SplitAfterShape(data);
    var old_ := SplitAfter(data);
    var lines := RespellAll(old_, family);
    forall i | 0 <= i < |lines| ensures (Terminated(old_[i]) ==> Terminated(lines[i])) && (Unterminated(old_[i]) ==> Unterminated(lines[i])) {
      RespellShape(old_[i], family);
    }
    assert Unterminated(lines[|lines| - 1]);
    SplitConcat(lines);
  }

  lemma {:induction false} NamedIff(lines: seq<string>, family: string, version: string, newline: string)
    ensures ScanOf(lines, family, version, newline).named <==> exists i :: 0 <= i < |lines| && NamesFamily(lines[i], family)
    decreases |lines|
  {
    if lines != [] {
      var k := |lines| - 1;
      NamedIff(lines[..k], family, version, newline);
      assert lines == lines[..k] + [lines[k]];
    }
  }

  lemma NoneNamed(lines: seq<string>, family: string, i: nat)
    requires ValidToolName(family) && |family| < 1000 && i < |lines| && Run(Start, Items(lines)).Reading?
    ensures !NamesFamily(RespellAll(lines, family)[i], family)
  {
    RunPrefix(Start, Items(lines), i);
    if Read(lines[i]) == FamilyHeader(family) {
      SpacedLine(family, "");
      SpacedLine(family, "\n");
    } else if NamesFamily(lines[i], family) {
      NamedHeader(lines[i], family);
    }
  }

  /** In any registry that can be switched, respelling the family's header keeps what it
      parses to, and the switch finds no writable key. */
  lemma RespelledHeaderRefuses(data: string, family: string, version: string, validate: Registry -> bool, r: Outcome)
    requires Ready(data, family, version) && |family| < 1000
    ensures var spaced := Concat(RespellAll(SplitAfter(data), family));
            && ParseTOML(spaced) == ParseTOML(data) && Ready(spaced, family, version)
            && !ScanText(spaced, family, version).named
            && (Switched(spaced, ParseTOML(spaced).value, family, version, validate, r) ==> r == NoWritableKey)
  {
    var lines := SplitAfter(data);
    ReadyFamily(data, family, version);
    RespelledReads(lines, family);
    RespelledLines(data, family);
    var spaced := RespellAll(lines, family);
    NamedIff(spaced, family, version, NewlineOf(Concat(spaced)));
    forall i | 0 <= i < |spaced| ensures !NamesFamily(spaced[i], family) { NoneNamed(lines, family, i); }
  }

  lemma ReadyFamily(data: string, family: string, version: string)
    requires Ready(data, family, version)
    ensures ValidToolName(family) && Run(Start, Items(SplitAfter(data))).Reading?
  {
    AcceptedDefaults(data);
    FamilyNames(ParseTOML(data).value, family);
  }
}
