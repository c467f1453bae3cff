/**
 * The string operations of Go's `strings` and `bufio` packages on which every
 * text format of the repository rests. A string is a sequence of Unicode scalar
 * values; byte lengths appear only in the scanner's line limit.
 */
module Text {
  // ---------------------------------------------------------------- characters

  predicate IsSpace(c: char) {
    || '\t' <= c <= '\r'
    || c == ' '
    || c == '\U{85}' || c == '\U{A0}' || c == '\U{1680}'
    || '\U{2000}' <= c <= '\U{200A}'
    || c == '\U{2028}' || c == '\U{2029}' || c == '\U{202F}' || c == '\U{205F}' || c == '\U{3000}'
  }

  predicate IsDigit(c: char) { '0' <= c <= '9' }

  /** Lower case, exact on every character whose lower case is ASCII. */
  function LowerChar(c: char): char {
    if 'A' <= c <= 'Z' then (c as int + 32) as char
    else if c == '\U{212A}' then 'k'
    else if c == '\U{130}' then 'i'
    else c
  }

  /** The representative of a character under simple case folding, exact on every
      character that folds to ASCII. Folding is not lower casing: the long s folds
      to s but is its own lower case, and a dotted capital I lowers to i but does
      not fold to it. */
  function FoldChar(c: char): char {
    if 'A' <= c <= 'Z' then (c as int + 32) as char
    else if c == '\U{212A}' then 'k'
    else if c == '\U{17F}' then 's'
    else c
  }

  function Utf8Width(c: char): nat {
    if c as int < 0x80 then 1 else if c as int < 0x800 then 2 else if c as int < 0x10000 then 3 else 4
  }

  // ---------------------------------------------------------------- strings

  function Lower(s: string): (r: string)
    ensures |r| == |s|
    ensures forall i :: 0 <= i < |s| ==> r[i] == LowerChar(s[i])
  {
    seq(|s|, i requires 0 <= i < |s| => LowerChar(s[i]))
  }

  predicate EqualFold(a: string, b: string) {
    |a| == |b| && forall i :: 0 <= i < |a| ==> FoldChar(a[i]) == FoldChar(b[i])
  }

  predicate AllSpace(s: string) {
    forall i :: 0 <= i < |s| ==> IsSpace(s[i])
  }

  function TrimLeft(s: string): (r: string)
    ensures |r| <= |s|
  {
    if s != [] && IsSpace(s[0]) then TrimLeft(s[1..]) else s
  }

  function TrimRight(s: string): (r: string)
    ensures |r| <= |s|
  {
    if s != [] && IsSpace(s[|s| - 1]) then TrimRight(s[..|s| - 1]) else s
  }

  function Trim(s: string): (r: string)
    ensures |r| <= |s|
  {
    TrimRight(TrimLeft(s))
  }

  /** Position of the first `c`, or the length when there is none. */
  function IndexOf(s: string, c: char): (i: nat)
    ensures i <= |s|
    ensures i < |s| ==> s[i] == c
    ensures forall k :: 0 <= k < i ==> s[k] != c
  {
    if s == [] || s[0] == c then 0 else 1 + IndexOf(s[1..], c)
  }

  function SplitOn(s: string, c: char): (parts: seq<string>)
    ensures parts != []
    decreases |s|
  {
    var i := IndexOf(s, c);
    if i == |s| then [s] else [s[..i]] + SplitOn(s[i + 1..], c)
  }

  function Utf8Length(s: string): nat {
    if s == [] then 0 else Utf8Width(s[0]) + Utf8Length(s[1..])
  }

  /** Byte order of UTF-8 strings, which is the order of their code points. */
  predicate Less(a: string, b: string) {
    if b == [] then false
    else if a == [] then true
    else a[0] < b[0] || (a[0] == b[0] && Less(a[1..], b[1..]))
  }

  predicate Contains(s: string, part: string) {
    exists i :: 0 <= i <= |s| - |part| && part <= s[i..]
  }

  // ---------------------------------------------------------------- trimming

  /** A string that TrimSpace leaves alone. */
  predicate Trimmed(s: string) {
    s == [] || (!IsSpace(s[0]) && !IsSpace(s[|s| - 1]))
  }

  lemma {:induction false} TrimLeftSplit(s: string) returns (k: nat)
    ensures k <= |s| && TrimLeft(s) == s[k..] && AllSpace(s[..k])
    ensures TrimLeft(s) != [] ==> !IsSpace(TrimLeft(s)[0])
  {
    if s != [] && IsSpace(s[0]) {
      var j := TrimLeftSplit(s[1..]);
      k := j + 1;
      assert s[1..][j..] == s[k..];
      assert s[..k] == [s[0]] + s[1..][..j];
    } else {
      k := 0;
    }
  }

  lemma {:induction false} TrimRightSplit(s: string) returns (k: nat)
    ensures k <= |s| && TrimRight(s) == s[..k] && AllSpace(s[k..])
    ensures TrimRight(s) != [] ==> !IsSpace(TrimRight(s)[|TrimRight(s)| - 1])
  {
    if s != [] && IsSpace(s[|s| - 1]) {
      k := TrimRightSplit(s[..|s| - 1]);
      assert s[k..] == s[..|s| - 1][k..] + [s[|s| - 1]];
    } else {
      k := |s|;
    }
  }

  /** Leading white space disappears. */
  lemma {:induction false} TrimLeftPad(a: string, s: string)
    requires AllSpace(a)
    ensures TrimLeft(a + s) == TrimLeft(s)
  {
    if a != [] {
      assert (a + s)[1..] == a[1..] + s;
      TrimLeftPad(a[1..], s);
    } else {
      assert a + s == s;
    }
  }

  lemma {:induction false} TrimRightPad(s: string, b: string)
    requires AllSpace(b)
    ensures TrimRight(s + b) == TrimRight(s)
  {
    if b != [] {
      assert (s + b)[..|s + b| - 1] == s + b[..|b| - 1];
      TrimRightPad(s, b[..|b| - 1]);
    } else {
      assert s + b == s;
    }
  }

  /** TrimSpace removes exactly the surrounding white space. */
  lemma {:induction false} TrimSplit(s: string) returns (i: nat, j: nat)
    ensures i <= j <= |s| && Trim(s) == s[i..j] && AllSpace(s[..i]) && AllSpace(s[j..])
    ensures Trimmed(Trim(s))
  {
    i := TrimLeftSplit(s);
    var k := TrimRightSplit(s[i..]);
    j := i + k;
    assert s[i..][..k] == s[i..j];
    assert s[i..][k..] == s[j..];
  }

  lemma {:induction false} TrimPad(a: string, s: string, b: string)
    requires AllSpace(a) && AllSpace(b)
    ensures Trim(a + s + b) == Trim(s)
  {
    assert a + s + b == a + (s + b);
    TrimLeftPad(a, s + b);
    var k := TrimLeftSplit(s);
    if k == |s| {
      assert s[..k] == s;
      assert AllSpace(s + b);
      TrimAllSpace(s + b);
      TrimAllSpace(s);
    } else {
      assert s + b == s[..k] + (s[k..] + b);
      TrimLeftPad(s[..k], s[k..] + b);
      assert TrimLeft(s[k..] + b) == s[k..] + b;
      TrimRightPad(s[k..], b);
    }
  }

  lemma {:induction false} TrimAllSpace(s: string)
    requires AllSpace(s)
    ensures TrimLeft(s) == [] && Trim(s) == []
  {
    assert s == s + [];
    TrimLeftPad(s, []);
  }

  lemma TrimTrimmed(s: string)
    requires Trimmed(s)
    ensures Trim(s) == s
  {
  }

  /** What surrounds a trimmed core does not matter. */
  lemma TrimCore(a: string, core: string, b: string)
    requires AllSpace(a) && AllSpace(b) && Trimmed(core)
    ensures Trim(a + core + b) == core
  {
    TrimPad(a, core, b);
    TrimTrimmed(core);
  }

  lemma FirstOfSpace(s: string, i: nat)
    requires i <= |s| && AllSpace(s[..i])
    ensures i == 0 || IsSpace(s[0])
  {
    if i > 0 { assert s[..i][0] == s[0]; }
  }

  lemma LastNonSpace(s: string, at: nat, k: nat)
    requires at < |s| && !IsSpace(s[at]) && k <= |s| && AllSpace(s[k..])
    ensures at < k
  {
    assert forall m :: 0 <= m < |s| - k ==> IsSpace(s[k..][m]) && s[k..][m] == s[k + m];
  }

  /** A word at the start of a text survives trimming. */
  lemma PrefixOfTrim(head: string, word: string)
    requires word <= head && word != "" && !IsSpace(head[0]) && !IsSpace(word[|word| - 1])
    ensures word <= Trim(head)
  {
    var i, j := TrimSplit(head);
    FirstOfSpace(head, i);
    LastNonSpace(head, |word| - 1, j);
    assert head[..j][..|word|] == word;
  }

  // ---------------------------------------------------------------- lower case

  lemma LowerIdempotent(s: string)
    ensures Lower(Lower(s)) == Lower(s)
  {
  }

  /** A string over characters that are their own lower case. */
  lemma LowerFixed(s: string)
    requires forall i :: 0 <= i < |s| ==> LowerChar(s[i]) == s[i]
    ensures Lower(s) == s
  {
  }

  // ---------------------------------------------------------------- lines

  /** `strings.SplitAfter(s, "\n")`: every element but the last ends in a newline. */
  function SplitAfter(s: string): (lines: seq<string>)
    ensures lines != []
    decreases |s|
  {
    var i := IndexOf(s, '\n');
    if i == |s| then [s] else [s[..i + 1]] + SplitAfter(s[i + 1..])
  }

  function Concat(lines: seq<string>): string {
    if lines == [] then "" else lines[0] + Concat(lines[1..])
  }

  /** One newline, at the end. */
  predicate Terminated(line: string) {
    line != [] && line[|line| - 1] == '\n' && forall i :: 0 <= i < |line| - 1 ==> line[i] != '\n'
  }

  predicate Unterminated(line: string) {
    forall i :: 0 <= i < |line| ==> line[i] != '\n'
  }

  /** The shape of text cut into lines: all terminated except possibly the last. */
  predicate Lineated(lines: seq<string>) {
    && (forall i :: 0 <= i < |lines| - 1 ==> Terminated(lines[i]))
    && (lines != [] ==> Terminated(lines[|lines| - 1]) || Unterminated(lines[|lines| - 1]))
  }

  lemma {:induction false} SplitAfterShape(s: string)
    ensures Lineated(SplitAfter(s)) && Concat(SplitAfter(s)) == s
    ensures Unterminated(SplitAfter(s)[|SplitAfter(s)| - 1])
    decreases |s|
  {
    var i := IndexOf(s, '\n');
    if i < |s| {
      var rest := SplitAfter(s[i + 1..]);
      SplitAfterShape(s[i + 1..]);
      assert SplitAfter(s)[1..] == rest;
      assert s == s[..i + 1] + s[i + 1..];
      assert Terminated(s[..i + 1]);
      forall k | 0 <= k < |SplitAfter(s)| - 1 ensures Terminated(SplitAfter(s)[k]) {
        if k > 0 { assert SplitAfter(s)[k] == rest[k - 1]; }
      }
    } else {
      assert SplitAfter(s)[1..] == [];
    }
  }

  lemma SplitHead(line: string, rest: string)
    requires Terminated(line)
    ensures SplitAfter(line + rest) == [line] + SplitAfter(rest)
  {
    var text := line + rest;
    assert text[|line| - 1] == '\n';
    assert forall k :: 0 <= k < |line| - 1 ==> text[k] == line[k];
    assert IndexOf(text, '\n') == |line| - 1;
    assert text[..|line|] == line && text[|line|..] == rest;
  }

  /** Joining lines and cutting the text again gives the lines back, with an empty
      last element when the text ends in a newline. */
  lemma {:induction false} SplitConcat(lines: seq<string>)
    requires Lineated(lines)
    ensures SplitAfter(Concat(lines)) ==
            if lines != [] && Unterminated(lines[|lines| - 1]) then lines else lines + [""]
  {
    if |lines| >= 1 && Terminated(lines[0]) {
      var tail := lines[1..];
      TailLineated(lines);
      SplitHead(lines[0], Concat(tail));
      SplitConcat(tail);
    } else if lines != [] {
      SplitLast(lines[0]);
      assert lines[1..] == [];
      assert lines[0] + "" == lines[0];
    }
  }

  lemma TailLineated(lines: seq<string>)
    requires lines != [] && Lineated(lines) && Terminated(lines[0])
    ensures Lineated(lines[1..]) && lines == [lines[0]] + lines[1..]
    ensures [lines[0]] + (lines[1..] + [""]) == lines + [""]
    ensures lines[1..] == [] ==> !Unterminated(lines[|lines| - 1])
    ensures lines[1..] != [] ==> lines[1..][|lines| - 2] == lines[|lines| - 1]
  {
    var line := lines[0];
    assert line[|line| - 1] == '\n';
  }

  lemma SplitLast(line: string)
    requires Unterminated(line)
    ensures SplitAfter(line) == [line]
  {
  }

  lemma {:induction false} ConcatAppend(a: seq<string>, b: seq<string>)
    ensures Concat(a + b) == Concat(a) + Concat(b)
  {
    if a == [] {
      assert a + b == b;
    } else {
      assert (a + b)[1..] == a[1..] + b;
      ConcatAppend(a[1..], b);
    }
  }

  /** bufio.Scanner refuses a line whose bytes before the newline fill its 64 KiB buffer. */
  const MAX_SCAN_TOKEN: nat := 65536

  function WithoutNewline(line: string): string {
    if line != [] && line[|line| - 1] == '\n' then line[..|line| - 1] else line
  }

  predicate FitsScanner(line: string) {
    Utf8Length(WithoutNewline(line)) < MAX_SCAN_TOKEN
  }

  lemma {:induction false} Utf8LengthAscii(s: string)
    requires forall i :: 0 <= i < |s| ==> (s[i] as int) < 0x80
    ensures Utf8Length(s) == |s|
  {
    if s != "" { Utf8LengthAscii(s[1..]); }
  }

  // ---------------------------------------------------------------- splitting and joining

  function JoinWith(parts: seq<string>, c: char): string {
    if parts == [] then "" else if |parts| == 1 then parts[0] else parts[0] + [c] + JoinWith(parts[1..], c)
  }

  lemma {:induction false} JoinOfSplit(s: string, c: char)
    ensures JoinWith(SplitOn(s, c), c) == s
    decreases |s|
  {
    var i := IndexOf(s, c);
    if i < |s| {
      var rest := SplitOn(s[i + 1..], c);
      JoinOfSplit(s[i + 1..], c);
      assert SplitOn(s, c)[1..] == rest;
      assert s == s[..i] + [c] + s[i + 1..];
    }
  }

  lemma {:induction false} IndexAfter(s: string, c: char, rest: string)
    requires c !in s
    ensures IndexOf(s + [c] + rest, c) == |s| && IndexOf(s, c) == |s|
  {
    if s == "" {
      assert s + [c] + rest == [c] + rest;
    } else {
      assert s[0] in s && forall x :: x in s[1..] ==> x in s;
      assert (s + [c] + rest)[1..] == s[1..] + [c] + rest;
      IndexAfter(s[1..], c, rest);
    }
  }

  lemma SplitOnce(s: string, c: char, rest: string)
    requires c !in s
    ensures SplitOn(s + [c] + rest, c) == [s] + SplitOn(rest, c) && SplitOn(s, c) == [s]
  {
    IndexAfter(s, c, rest);
    var text := s + [c] + rest;
    assert text[..|s|] == s && text[|s| + 1..] == rest;
  }

  predicate NoneHolds(parts: seq<string>, c: char) {
    forall i :: 0 <= i < |parts| ==> c !in parts[i]
  }

  lemma {:induction false} SplitOfJoin(parts: seq<string>, c: char)
    requires parts != [] && NoneHolds(parts, c)
    ensures SplitOn(JoinWith(parts, c), c) == parts
  {
    var rest := JoinWith(parts[1..], c);
    SplitOnce(parts[0], c, rest);
    if |parts| > 1 {
      assert forall i :: 0 <= i < |parts[1..]| ==> parts[1..][i] == parts[i + 1];
      SplitOfJoin(parts[1..], c);
      assert parts == [parts[0]] + parts[1..];
    }
  }

  /** What a joined text is made of. */
  lemma {:induction false} JoinChars(parts: seq<string>, c: char, x: char)
    requires x != c && NoneHolds(parts, x)
    ensures x !in JoinWith(parts, c)
  {
    if |parts| > 1 {
      assert forall i :: 0 <= i < |parts[1..]| ==> parts[1..][i] == parts[i + 1];
      JoinChars(parts[1..], c, x);
    }
  }
}
