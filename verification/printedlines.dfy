/** The line shapes that the lockfile and the trust store are printed in, and what a reader
    makes of each. */
module PrintedLines {
  import opened Text
  import opened Toml
  import R = Registry

  function AssignLine(key: string, value: string): string {
    key + " = " + value + "\n"
  }

  function HeaderLine(section: string): string {
    "[" + section + "]" + "\n"
  }

  function CommentLine(text: string): string {
    "#" + text + "\n"
  }

  predicate AllFit(lines: seq<string>) {
    forall i :: 0 <= i < |lines| ==> FitsScanner(lines[i])
  }

  lemma AllFitAppend(a: seq<string>, b: seq<string>)
    ensures AllFit(a + b) <==> AllFit(a) && AllFit(b)
  {
    if AllFit(a + b) {
      assert forall i :: 0 <= i < |a| ==> a[i] == (a + b)[i];
      assert forall i :: 0 <= i < |b| ==> b[i] == (a + b)[|a| + i];
    }
  }

  predicate AllTerminated(lines: seq<string>) {
    forall i :: 0 <= i < |lines| ==> Terminated(lines[i])
  }

  lemma AssignIsLine(key: string, value: string)
    requires PlainKey(key) && '\n' !in value
    ensures Terminated(AssignLine(key, value))
  {
    var body := key + " = " + value;
    assert '\n' !in body;
    assert forall i :: 0 <= i < |body| ==> (body + "\n")[i] == body[i] && body[i] in body;
  }

  lemma TextIsLine(text: string)
    requires '\n' !in text
    ensures Terminated(text + "\n")
  {
  }

  lemma HeaderIsLine(section: string)
    requires '\n' !in section
    ensures Terminated(HeaderLine(section))
  {
  }

  lemma HeaderMeaning(section: string)
    requires '"' !in section && '#' !in section
    ensures R.Meaning(HeaderLine(section)) == "[" + section + "]"
  {
    var line := "[" + section + "]";
    PlainText(line + "\n");
    assert StripComment(line + "\n") == line + "\n" == "" + line + "\n";
    TrimCore("", line, "\n");
  }

  lemma AssignMeaning(key: string, value: string)
    requires PlainKey(key) && ClosedValue(value)
    ensures R.Meaning(AssignLine(key, value)) == key + " = " + value
  {
    RenderedLine(key, value);
  }

  /** The characters of the section names the repository prints. */
  predicate PlainSection(section: string) {
    section != "" && Trimmed(section) && forall c :: c in section ==> c != '"' && c != '#' && c != '[' && c != ']' && c != '\n'
  }

  lemma HeaderOfPlain(section: string)
    requires PlainSection(section)
    ensures HeaderOf("[" + section + "]") == Section(section)
  {
    var line := "[" + section + "]";
    assert line[1] == section[0] && section[0] in section;
    assert line[1..|line| - 1] == section;
    TrimTrimmed(section);
  }

  lemma HeaderIsClosed(section: string)
    requires PlainSection(section)
    ensures ClosedValue("[" + section + "]")
  {
    PlainText("[" + section + "]");
  }
}
