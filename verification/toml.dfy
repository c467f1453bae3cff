/**
 * internal/toml/toml.go: the quote-aware scanners and the quoting codec of the
 * tiny TOML subset, with `strconv.Quote` and `strconv.Unquote` written out.
 */
module Toml {
  import opened Wrappers
  import opened Text

  // ---------------------------------------------------------------- comments

  /** Where the comment scanner stands: outside quotes, inside, or after a backslash inside. */
  datatype Lex = Plain | Quoted | Escaped

  function Next(q: Lex, c: char): Lex {
    match q
    case Plain => if c == '"' then Quoted else Plain
    case Quoted => if c == '\\' then Escaped else if c == '"' then Plain else Quoted
    case Escaped => Quoted
  }

  function After(q: Lex, s: string): Lex
    decreases |s|
  {
    if s == [] then q else After(Next(q, s[0]), s[1..])
  }

  /** Index of the first `#` outside quotes, or the length. */
  function CommentAt(q: Lex, s: string): (i: nat)
    ensures i <= |s|
    decreases |s|
  {
    if s == [] || (q == Plain && s[0] == '#') then 0 else 1 + CommentAt(Next(q, s[0]), s[1..])
  }

  function StripComment(s: string): string {
    s[..CommentAt(Plain, s)]
  }

  /** The scanner of toml.go, with its two flags. */
  method StripCommentLoop(s: string) returns (r: string)
    ensures r == StripComment(s)
  {
    var inQuote, escaped := false, false;
    var i := 0;
    while i < |s|
      invariant 0 <= i <= |s|
      invariant escaped ==> inQuote
      invariant CommentAt(Plain, s) ==
                i + CommentAt(if escaped then Escaped else if inQuote then Quoted else Plain, s[i..])
    {
      var c := s[i];
      assert s[i..][1..] == s[i + 1..];
      if escaped {
        escaped := false;
      } else if c == '\\' && inQuote {
        escaped := true;
      } else if c == '"' {
        inQuote := !inQuote;
      } else if c == '#' && !inQuote {
        return s[..i];
      }
      i := i + 1;
    }
    assert s[..|s|] == s;
    return s;
  }

  lemma {:induction false} AfterAppend(q: Lex, a: string, b: string)
    ensures After(q, a + b) == After(After(q, a), b)
    decreases |a|
  {
    if a == [] {
      assert a + b == b;
    } else {
      assert (a + b)[1..] == a[1..] + b;
      AfterAppend(Next(q, a[0]), a[1..], b);
    }
  }

  lemma {:induction false} CommentAppend(q: Lex, a: string, b: string)
    ensures CommentAt(q, a + b) ==
            if CommentAt(q, a) < |a| then CommentAt(q, a) else |a| + CommentAt(After(q, a), b)
    decreases |a|
  {
    if a == [] {
      assert a + b == b;
    } else {
      assert (a + b)[1..] == a[1..] + b;
      CommentAppend(Next(q, a[0]), a[1..], b);
    }
  }

  /** A prefix in which the scanner sees no comment keeps it outside one. */
  lemma {:induction false} CommentOfPrefix(q: Lex, s: string, k: nat)
    requires k <= CommentAt(q, s)
    ensures CommentAt(q, s[..k]) == k
    decreases k
  {
    if k > 0 {
      assert s[..k][1..] == s[1..][..k - 1];
      CommentOfPrefix(Next(q, s[0]), s[1..], k - 1);
    }
  }

  lemma StripIdempotent(s: string)
    ensures StripComment(StripComment(s)) == StripComment(s)
  {
    CommentOfPrefix(Plain, s, CommentAt(Plain, s));
  }

  /** Text free of quotes and of `#` neither opens a quote nor starts a comment. */
  lemma {:induction false} PlainText(s: string)
    requires '"' !in s && '#' !in s
    ensures After(Plain, s) == Plain && CommentAt(Plain, s) == |s|
  {
    if s != [] {
      assert forall c :: c in s[1..] ==> c in s;
      PlainText(s[1..]);
    }
  }

  lemma {:induction false} QuotedText(s: string)
    requires '"' !in s && '\\' !in s
    ensures After(Quoted, s) == Quoted && CommentAt(Quoted, s) == |s|
  {
    if s != [] {
      assert forall c :: c in s[1..] ==> c in s;
      QuotedText(s[1..]);
    }
  }

  // ---------------------------------------------------------------- headers

  datatype Header = NotHeader | Section(name: string) | Malformed

  /** The header held by an already stripped and trimmed line. */
  function HeaderOf(line: string): Header {
    if line == "" || line[0] != '[' then NotHeader
    else if |line| >= 2 && line[1] == '[' then Malformed
    else if line[|line| - 1] != ']' then Malformed
    else
      var section := Trim(line[1..|line| - 1]);
      if section == "" || '[' in section || ']' in section then Malformed else Section(section)
  }

  function ParseSectionHeader(s: string): Header {
    HeaderOf(Trim(StripComment(s)))
  }

  // ---------------------------------------------------------------- quoting

  /** Which characters from U+0080 up strconv considers printable. */
  type Printable = char -> bool

  predicate IsPrint(shown: Printable, c: char) {
    if (c as int) < 0x80 then 0x20 <= (c as int) < 0x7f else shown(c)
  }

  function HexDigit(d: nat): char
    requires d < 16
  {
    "0123456789abcdef"[d]
  }

  function HexValue(c: char): Option<nat> {
    if '0' <= c <= '9' then Some(c as int - '0' as int)
    else if 'a' <= c <= 'f' then Some(c as int - 'a' as int + 10)
    else if 'A' <= c <= 'F' then Some(c as int - 'A' as int + 10)
    else None
  }

  /** `width` lower-case hexadecimal digits of `n`, most significant first. */
  function Hex(n: nat, width: nat): (s: string)
    ensures |s| == width
  {
    if width == 0 then "" else Hex(n / 16, width - 1) + [HexDigit(n % 16)]
  }

  function ParseHex(s: string): Option<nat> {
    if s == "" then Some(0)
    else
      match (ParseHex(s[..|s| - 1]), HexValue(s[|s| - 1]))
      case (Some(high), Some(low)) => Some(16 * high + low)
      case _ => None
  }

  function HexLimit(width: nat): nat {
    if width == 0 then 1 else 16 * HexLimit(width - 1)
  }

  lemma {:induction false} HexRoundTrip(n: nat, width: nat)
    requires n < HexLimit(width)
    ensures ParseHex(Hex(n, width)) == Some(n)
  {
    if width > 0 {
      HexRoundTrip(n / 16, width - 1);
      var s := Hex(n, width);
      assert s[..|s| - 1] == Hex(n / 16, width - 1);
      assert s[|s| - 1] == HexDigit(n % 16);
    }
  }

  lemma {:induction false} HexIsPlain(n: nat, width: nat)
    ensures forall i :: 0 <= i < width ==> '0' <= Hex(n, width)[i] <= 'f' && Hex(n, width)[i] != '\\'
  {
    if width > 0 { HexIsPlain(n / 16, width - 1); }
  }

  lemma HexLimits()
    ensures HexLimit(2) == 0x100 && HexLimit(4) == 0x10000 && HexLimit(8) == 0x1_0000_0000
  {
    assert HexLimit(2) == 16 * HexLimit(1) && HexLimit(1) == 16 * HexLimit(0);
    assert HexLimit(4) == 16 * HexLimit(3) && HexLimit(3) == 16 * HexLimit(2);
    assert HexLimit(8) == 16 * HexLimit(7) && HexLimit(7) == 16 * HexLimit(6);
    assert HexLimit(6) == 16 * HexLimit(5) && HexLimit(5) == 16 * HexLimit(4);
  }

  /** The letter of a one-letter escape. */
  function ControlLetter(c: char): Option<char> {
    match c as int
    case 7 => Some('a')
    case 8 => Some('b')
    case 9 => Some('t')
    case 10 => Some('n')
    case 11 => Some('v')
    case 12 => Some('f')
    case 13 => Some('r')
    case _ => None
  }

  function EscapeRune(shown: Printable, c: char): (s: string)
    ensures s != ""
  {
    if c == '"' || c == '\\' then ['\\', c]
    else if IsPrint(shown, c) then [c]
    else if ControlLetter(c).Some? then ['\\', ControlLetter(c).value]
    else if c < ' ' || c as int == 0x7f then "\\x" + Hex(c as int, 2)
    else if c as int < 0x10000 then "\\u" + Hex(c as int, 4)
    else "\\U" + Hex(c as int, 8)
  }

  function QuoteBody(shown: Printable, s: string): string {
    if s == "" then "" else EscapeRune(shown, s[0]) + QuoteBody(shown, s[1..])
  }

  function Quote(shown: Printable, s: string): string {
    "\"" + QuoteBody(shown, s) + "\""
  }

  /** A number as a character; surrogates and numbers above U+10FFFF are not characters. */
  function Rune(n: nat): Option<char> {
    if n < 0xD800 || 0xE000 <= n < 0x11_0000 then Some(n as char) else None
  }

  function HexEscape(s: string, width: nat, limit: nat): Option<(char, nat)> {
    if |s| < 2 + width then None
    else
      match ParseHex(s[2..2 + width])
      case None => None
      case Some(n) =>
        if n >= limit then None
        else match Rune(n) case None => None case Some(c) => Some((c, 2 + width))
  }

  function OctalEscape(s: string): Option<(char, nat)>
    requires |s| >= 2
  {
    if |s| < 4 || !('0' <= s[1] <= '7') || !('0' <= s[2] <= '7') || !('0' <= s[3] <= '7') then None
    else
      var n := 64 * (s[1] as int - '0' as int) + 8 * (s[2] as int - '0' as int) + (s[3] as int - '0' as int);
      if n >= 0x80 then None else Some((n as char, 4))
  }

  /** The character a backslash sequence at the start of `s` denotes, and its length.
      Byte escapes from \x80 up, which denote no character on their own, are refused. */
  function Unescape(s: string): Option<(char, nat)>
    requires s != "" && s[0] == '\\'
  {
    if |s| == 1 then None
    else
      match s[1]
      case 'a' => Some((7 as char, 2))
      case 'b' => Some((8 as char, 2))
      case 'f' => Some((12 as char, 2))
      case 'n' => Some(('\n', 2))
      case 'r' => Some(('\r', 2))
      case 't' => Some(('\t', 2))
      case 'v' => Some((11 as char, 2))
      case 'x' => HexEscape(s, 2, 0x80)
      case 'u' => HexEscape(s, 4, 0x11_0000)
      case 'U' => HexEscape(s, 8, 0x11_0000)
      case '\\' => Some(('\\', 2))
      case '"' => Some(('"', 2))
      case _ => OctalEscape(s)
  }

  /** What follows the opening quote: the characters up to a closing quote that must end the text. */
  function UnquoteBody(s: string): Option<string>
    decreases |s|
  {
    if s == "" then None
    else if s[0] == '"' then if |s| == 1 then Some("") else None
    else if s[0] == '\n' then None
    else if s[0] != '\\' then
      match UnquoteBody(s[1..]) case None => None case Some(rest) => Some([s[0]] + rest)
    else
      match Unescape(s)
      case None => None
      case Some((c, k)) =>
        if k > |s| || k == 0 then None
        else match UnquoteBody(s[k..]) case None => None case Some(rest) => Some([c] + rest)
  }

  function Unquote(s: string): Option<string> {
    if s == "" || s[0] != '"' then None else UnquoteBody(s[1..])
  }

  function ParseQuoted(text: string): Option<string> {
    var s := Trim(text);
    if |s| < 2 || s[0] != '"' || s[|s| - 1] != '"' then None else Unquote(s)
  }

  function ParseBool(text: string): Option<bool> {
    if Trim(text) == "true" then Some(true) else if Trim(text) == "false" then Some(false) else None
  }

  lemma HexEscapeOfHex(lead: string, c: char, width: nat, limit: nat, rest: string)
    requires |lead| == 2 && c as int < limit && c as int < HexLimit(width)
    ensures HexEscape(lead + Hex(c as int, width) + rest, width, limit) == Some((c, 2 + width))
  {
    var s := lead + Hex(c as int, width) + rest;
    assert s[2..2 + width] == Hex(c as int, width);
    HexRoundTrip(c as int, width);
  }

  lemma UnescapeEscape(shown: Printable, c: char, rest: string)
    requires EscapeRune(shown, c)[0] == '\\'
    ensures Unescape(EscapeRune(shown, c) + rest) == Some((c, |EscapeRune(shown, c)|))
  {
    var e := EscapeRune(shown, c);
    HexLimits();
    if c == '"' || c == '\\' || ControlLetter(c).Some? {
    } else if c < ' ' || c as int == 0x7f {
      HexEscapeOfHex("\\x", c, 2, 0x80, rest);
    } else if c as int < 0x10000 {
      HexEscapeOfHex("\\u", c, 4, 0x11_0000, rest);
    } else {
      HexEscapeOfHex("\\U", c, 8, 0x11_0000, rest);
    }
  }

  /** Unquoting undoes quoting, whatever the printable set. */
  lemma {:induction false} UnquoteQuoteBody(shown: Printable, s: string)
    ensures UnquoteBody(QuoteBody(shown, s) + "\"") == Some(s)
  {
    if s == "" {
    } else {
      UnquoteQuoteBody(shown, s[1..]);
      UnquoteRune(shown, s[0], QuoteBody(shown, s[1..]) + "\"");
      assert QuoteBody(shown, s) + "\"" == EscapeRune(shown, s[0]) + (QuoteBody(shown, s[1..]) + "\"");
      assert s == [s[0]] + s[1..];
    }
  }

  /** One quoted character, whatever follows. */
  lemma UnquoteRune(shown: Printable, c: char, rest: string)
    requires rest != "" && UnquoteBody(rest).Some?
    ensures UnquoteBody(EscapeRune(shown, c) + rest) == Some([c] + UnquoteBody(rest).value)
  {
    var e := EscapeRune(shown, c);
    assert (e + rest)[|e|..] == rest;
    if e[0] == '\\' {
      UnescapeEscape(shown, c, rest);
    } else {
      assert e == [c];
    }
  }

  lemma UnquoteQuote(shown: Printable, s: string)
    ensures Unquote(Quote(shown, s)) == Some(s)
  {
    UnquoteQuoteBody(shown, s);
    assert Quote(shown, s)[1..] == QuoteBody(shown, s) + "\"";
  }

  lemma QuoteIsTrimmed(shown: Printable, s: string)
    ensures Trimmed(Quote(shown, s)) && |Quote(shown, s)| >= 2
    ensures Quote(shown, s)[0] == '"' && Quote(shown, s)[|Quote(shown, s)| - 1] == '"'
  {
  }

  /** A quoted value parses back to itself. */
  lemma ParseQuotedQuote(shown: Printable, s: string)
    ensures ParseQuoted(Quote(shown, s)) == Some(s)
  {
    QuoteIsTrimmed(shown, s);
    UnquoteQuote(shown, s);
  }

  lemma EscapeLex(shown: Printable, c: char)
    ensures After(Quoted, EscapeRune(shown, c)) == Quoted
    ensures CommentAt(Quoted, EscapeRune(shown, c)) == |EscapeRune(shown, c)|
    ensures '\n' !in EscapeRune(shown, c)
  {
    var e := EscapeRune(shown, c);
    if |e| > 1 {
      HexIsPlain(c as int, 2);
      HexIsPlain(c as int, 4);
      HexIsPlain(c as int, 8);
      assert e[1..][0] == e[1];
      QuotedText(e[2..]);
      assert e[1..][1..] == e[2..];
    } else {
      assert e[1..] == "";
    }
  }

  lemma {:induction false} QuoteBodyLex(shown: Printable, s: string)
    ensures After(Quoted, QuoteBody(shown, s)) == Quoted
    ensures CommentAt(Quoted, QuoteBody(shown, s)) == |QuoteBody(shown, s)|
    ensures '\n' !in QuoteBody(shown, s)
  {
    if s != "" {
      EscapeLex(shown, s[0]);
      QuoteBodyLex(shown, s[1..]);
      AfterAppend(Quoted, EscapeRune(shown, s[0]), QuoteBody(shown, s[1..]));
      CommentAppend(Quoted, EscapeRune(shown, s[0]), QuoteBody(shown, s[1..]));
    }
  }

  /** A quoted value is closed, free of newlines, and its `#` starts no comment. */
  lemma QuoteLex(shown: Printable, s: string)
    ensures After(Plain, Quote(shown, s)) == Plain
    ensures CommentAt(Plain, Quote(shown, s)) == |Quote(shown, s)|
    ensures '\n' !in Quote(shown, s)
  {
    var body := QuoteBody(shown, s);
    QuoteBodyLex(shown, s);
    AfterAppend(Quoted, body, "\"");
    CommentAppend(Quoted, body, "\"");
    assert Quote(shown, s)[1..] == body + "\"";
  }

  // ---------------------------------------------------------------- arrays

  /** Index of the quote that closes the string whose opening quote has been read. */
  function ClosingQuote(s: string, escaped: bool): (i: nat)
    ensures i <= |s|
  {
    if s == "" then 0
    else if escaped then 1 + ClosingQuote(s[1..], false)
    else if s[0] == '\\' then 1 + ClosingQuote(s[1..], true)
    else if s[0] == '"' then 0
    else 1 + ClosingQuote(s[1..], false)
  }

  /** The quoted string at the start of a text, and what follows it. */
  function FirstElement(text: string): Option<(string, string)> {
    var inner := Trim(text);
    if inner == "" || inner[0] != '"' then None
    else
      var end := 1 + ClosingQuote(inner[1..], false);
      if end >= |inner| then None
      else
        match Unquote(inner[..end + 1])
        case None => None
        case Some(v) => Some((v, Trim(inner[end + 1..])))
  }

  lemma RestIsShorter(text: string)
    requires FirstElement(text).Some?
    ensures |FirstElement(text).value.1| < |text|
  {
    var inner := Trim(text);
    var end := 1 + ClosingQuote(inner[1..], false);
    var i, j := TrimSplit(text);
    var k, l := TrimSplit(inner[end + 1..]);
  }

  function Elements(text: string): Option<seq<string>>
    decreases |text|
  {
    if text == "" then Some([])
    else
      match FirstElement(text)
      case None => None
      case Some((v, rest)) =>
        RestIsShorter(text);
        if rest == "" then Some([v])
        else if rest[0] != ',' then None
        else Prepend([v], Elements(rest[1..]))
  }

  function ParseStringArray(text: string): Option<seq<string>> {
    var s := Trim(text);
    if s == "[]" then Some([])
    else if |s| < 2 || s[0] != '[' || s[|s| - 1] != ']' then None
    else Elements(Trim(s[1..|s| - 1]))
  }

  /** The inner scan: the closing quote of the string at the start of `inner`, or -1. */
  method ClosingQuoteLoop(inner: string) returns (end: int)
    requires inner != ""
    ensures end == var e := 1 + ClosingQuote(inner[1..], false); if e < |inner| then e else -1
  {
    end := -1;
    var escaped := false;
    var i := 1;
    while i < |inner|
      invariant 1 <= i <= |inner|
      invariant 1 + ClosingQuote(inner[1..], false) == i + ClosingQuote(inner[i..], escaped)
    {
      assert inner[i..][1..] == inner[i + 1..];
      if escaped {
        escaped := false;
      } else if inner[i] == '\\' {
        escaped := true;
      } else if inner[i] == '"' {
        return i;
      }
      i := i + 1;
    }
  }

  method ReadElement(text: string) returns (e: Option<(string, string)>)
    ensures e == FirstElement(text)
  {
    var inner := Trim(text);
    if inner == "" || inner[0] != '"' { return None; }
    var end := ClosingQuoteLoop(inner);
    if end < 0 { return None; }
    var v := Unquote(inner[..end + 1]);
    if v.None? { return None; }
    return Some((v.value, Trim(inner[end + 1..])));
  }

  /** The element loop of toml.go. */
  method ParseStringArrayLoop(text: string) returns (r: Option<seq<string>>)
    ensures r == ParseStringArray(text)
  {
    var s := Trim(text);
    if s == "[]" { return Some([]); }
    if |s| < 2 || s[0] != '[' || s[|s| - 1] != ']' { return None; }
    var inner := Trim(s[1..|s| - 1]);
    var out: seq<string> := [];
    PrependNone(Elements(inner));
    while |inner| > 0
      invariant ParseStringArray(text) == Prepend(out, Elements(inner))
      decreases |inner|
    {
      var e := ReadElement(inner);
      if e.None? { return None; }
      ElementRead(out, inner);
      RestIsShorter(inner);
      out := out + [e.value.0];
      inner := e.value.1;
      if inner == "" { break; }
      if inner[0] != ',' { return None; }
      inner := inner[1..];
    }
    assert out + [] == out;
    return Some(out);
  }

  /** One element is read: what is left is the elements after its comma. */
  lemma ElementRead(out: seq<string>, text: string)
    requires text != "" && FirstElement(text).Some?
    ensures var (v, rest) := FirstElement(text).value;
            Prepend(out, Elements(text)) ==
            if rest == "" then Some(out + [v]) else if rest[0] != ',' then None else Prepend(out + [v], Elements(rest[1..]))
  {
    var (v, rest) := FirstElement(text).value;
    if rest != "" && rest[0] == ',' { PrependTwice(out, v, Elements(rest[1..])); }
  }

  function Prepend(out: seq<string>, r: Option<seq<string>>): Option<seq<string>> {
    match r case None => None case Some(vs) => Some(out + vs)
  }

  lemma PrependNone(r: Option<seq<string>>)
    ensures Prepend([], r) == r
  {
    if r.Some? { assert [] + r.value == r.value; }
  }

  lemma PrependTwice(out: seq<string>, v: string, r: Option<seq<string>>)
    ensures Prepend(out, Prepend([v], r)) == Prepend(out + [v], r)
  {
    if r.Some? { assert out + ([v] + r.value) == out + [v] + r.value; }
  }

  function Join(xs: seq<string>, sep: string): string {
    if xs == [] then "" else if |xs| == 1 then xs[0] else xs[0] + sep + Join(xs[1..], sep)
  }

  function QuoteAll(shown: Printable, xs: seq<string>): seq<string> {
    seq(|xs|, i requires 0 <= i < |xs| => Quote(shown, xs[i]))
  }

  function Array(shown: Printable, xs: seq<string>): string {
    "[" + Rendered(shown, xs) + "]"
  }

  lemma {:induction false} ClosingQuoteSkips(s: string, escaped: bool, rest: string)
    requires CommentAt(if escaped then Escaped else Quoted, s) == |s|
    requires forall k :: 0 < k <= |s| ==> After(if escaped then Escaped else Quoted, s[..k]) != Plain
    requires After(if escaped then Escaped else Quoted, s) == Quoted
    ensures ClosingQuote(s + "\"" + rest, escaped) == |s|
  {
    if s == "" {
      assert s + "\"" + rest == "\"" + rest;
    } else {
      var q := if escaped then Escaped else Quoted;
      assert s[..1][1..] == "" && s[..1][0] == s[0];
      assert After(q, s[..1]) == Next(q, s[0]);
      forall k | 0 < k <= |s[1..]| ensures After(Next(q, s[0]), s[1..][..k]) != Plain {
        assert s[..k + 1][1..] == s[1..][..k];
        assert After(q, s[..k + 1]) != Plain;
      }
      assert (s + "\"" + rest)[1..] == s[1..] + "\"" + rest;
      ClosingQuoteSkips(s[1..], Next(q, s[0]) == Escaped, rest);
    }
  }

  /** Inside a quoted body the scanner never leaves the quotes. */
  lemma {:induction false} QuoteBodyStaysInside(shown: Printable, s: string, k: nat)
    requires k <= |QuoteBody(shown, s)|
    ensures After(Quoted, QuoteBody(shown, s)[..k]) != Plain
  {
    if s != "" {
      var e, body := EscapeRune(shown, s[0]), QuoteBody(shown, s);
      if k >= |e| {
        EscapeLex(shown, s[0]);
        assert body[..k] == e + QuoteBody(shown, s[1..])[..k - |e|];
        AfterAppend(Quoted, e, QuoteBody(shown, s[1..])[..k - |e|]);
        QuoteBodyStaysInside(shown, s[1..], k - |e|);
      } else {
        assert body[..k] == e[..k];
        if k >= 2 {
          HexIsPlain(s[0] as int, 2);
          HexIsPlain(s[0] as int, 4);
          HexIsPlain(s[0] as int, 8);
          assert e[..k][1..][1..] == e[2..k];
          assert e[..k][1..][0] == e[1];
          QuotedText(e[2..k]);
        } else if k == 1 {
          assert e[..1][1..] == "" && e[..1][0] == e[0];
        }
      }
    }
  }

  lemma ClosingQuoteOfQuote(shown: Printable, s: string, rest: string)
    ensures ClosingQuote((Quote(shown, s) + rest)[1..], false) == |Quote(shown, s)| - 2
  {
    var body := QuoteBody(shown, s);
    assert (Quote(shown, s) + rest)[1..] == body + "\"" + rest;
    QuoteBodyLex(shown, s);
    forall k | 0 < k <= |body| ensures After(Quoted, body[..k]) != Plain {
      QuoteBodyStaysInside(shown, s, k);
    }
    ClosingQuoteSkips(body, false, rest);
  }

  lemma ElementsStep(text: string, q: string, tail: string, v: string)
    requires Trim(text) == q + tail && |q| >= 2 && q[0] == '"'
    requires ClosingQuote((q + tail)[1..], false) == |q| - 2 && Unquote(q) == Some(v)
    ensures text != ""
    ensures Elements(text) ==
            var rest := Trim(tail);
            if rest == "" then Some([v]) else if rest[0] != ',' then None else Prepend([v], Elements(rest[1..]))
  {
    var inner := q + tail;
    assert inner[..|q|] == q && inner[|q|..] == tail;
  }

  /** One element of a rendered list is read back, and the reader is left after its comma. */
  lemma ElementsOfQuote(shown: Printable, x: string, pad: string, tail: string)
    requires AllSpace(pad) && Trimmed(tail)
    ensures Elements(pad + (Quote(shown, x) + tail)) ==
            if tail == "" then Some([x]) else if tail[0] != ',' then None else Prepend([x], Elements(tail[1..]))
  {
    var q := Quote(shown, x);
    QuoteIsTrimmed(shown, x);
    assert Trimmed(q + tail) by {
      assert tail != "" ==> (q + tail)[|q + tail| - 1] == tail[|tail| - 1];
    }
    assert pad + (q + tail) == pad + (q + tail) + "";
    TrimCore(pad, q + tail, "");
    ClosingQuoteOfQuote(shown, x, tail);
    UnquoteQuote(shown, x);
    TrimTrimmed(tail);
    ElementsStep(pad + (q + tail), q, tail, x);
  }

  function Rendered(shown: Printable, xs: seq<string>): string {
    Join(QuoteAll(shown, xs), ", ")
  }

  function RenderedTail(shown: Printable, xs: seq<string>): string {
    if |xs| <= 1 then "" else ", " + Rendered(shown, xs[1..])
  }

  lemma JoinSplit(qs: seq<string>, sep: string)
    requires qs != []
    ensures Join(qs, sep) == qs[0] + (if |qs| == 1 then "" else sep + Join(qs[1..], sep))
  {
    assert qs[0] + "" == qs[0];
    assert qs[0] + (sep + Join(qs[1..], sep)) == qs[0] + sep + Join(qs[1..], sep);
  }

  lemma RenderedSplit(shown: Printable, xs: seq<string>)
    requires xs != []
    ensures Rendered(shown, xs) == Quote(shown, xs[0]) + RenderedTail(shown, xs)
  {
    JoinSplit(QuoteAll(shown, xs), ", ");
    assert QuoteAll(shown, xs)[1..] == QuoteAll(shown, xs[1..]);
  }

  lemma RenderedTailTrimmed(shown: Printable, xs: seq<string>)
    requires xs != []
    ensures Trimmed(RenderedTail(shown, xs))
    ensures |xs| > 1 ==> RenderedTail(shown, xs)[1..] == " " + Rendered(shown, xs[1..])
    ensures |xs| > 1 ==> RenderedTail(shown, xs)[0] == ','
  {
    if |xs| > 1 {
      var rest := Rendered(shown, xs[1..]);
      JoinEnd(shown, xs[1..]);
      assert (", " + rest)[1..] == " " + rest;
      assert (", " + rest)[|rest| + 1] == rest[|rest| - 1];
    }
  }

  lemma {:induction false} ElementsOfJoin(shown: Printable, xs: seq<string>, pad: string)
    requires xs != [] && AllSpace(pad)
    ensures Elements(pad + Rendered(shown, xs)) == Some(xs)
    decreases |xs|
  {
    RenderedSplit(shown, xs);
    RenderedTailTrimmed(shown, xs);
    ElementsOfQuote(shown, xs[0], pad, RenderedTail(shown, xs));
    if |xs| == 1 {
      assert xs == [xs[0]];
    } else {
      ElementsOfJoin(shown, xs[1..], " ");
      PrependSome(xs);
    }
  }

  lemma PrependSome(xs: seq<string>)
    requires xs != []
    ensures Prepend([xs[0]], Some(xs[1..])) == Some(xs)
  {
    assert [xs[0]] + xs[1..] == xs;
  }

  lemma {:induction false} JoinEnd(shown: Printable, xs: seq<string>)
    requires xs != []
    ensures var j := Rendered(shown, xs); |j| >= 2 && j[0] == '"' && j[|j| - 1] == '"'
    decreases |xs|
  {
    if |xs| > 1 {
      assert QuoteAll(shown, xs)[1..] == QuoteAll(shown, xs[1..]);
      JoinEnd(shown, xs[1..]);
    }
    QuoteIsTrimmed(shown, xs[0]);
  }

  lemma ArrayIsTrimmed(shown: Printable, xs: seq<string>)
    ensures var a := Array(shown, xs); |a| >= 2 && a[0] == '[' && a[|a| - 1] == ']' && Trimmed(a)
    ensures Array(shown, xs)[1..|Array(shown, xs)| - 1] == Rendered(shown, xs)
  {
  }

  /** An array of quoted strings parses back to itself. */
  lemma ParseArrayArray(shown: Printable, xs: seq<string>)
    ensures ParseStringArray(Array(shown, xs)) == Some(xs)
  {
    var j := Rendered(shown, xs);
    ArrayIsTrimmed(shown, xs);
    TrimTrimmed(Array(shown, xs));
    if xs == [] {
      assert Array(shown, xs) == "[]";
    } else {
      JoinEnd(shown, xs);
      assert |Array(shown, xs)| > 2;
      TrimTrimmed(j);
      ElementsOfJoin(shown, xs, "");
      assert "" + j == j;
    }
  }

  lemma {:induction false} JoinLex(shown: Printable, xs: seq<string>)
    ensures var j := Rendered(shown, xs);
            After(Plain, j) == Plain && CommentAt(Plain, j) == |j| && '\n' !in j
    decreases |xs|
  {
    if xs != [] {
      var qs := QuoteAll(shown, xs);
      QuoteLex(shown, xs[0]);
      if |xs| > 1 {
        assert qs[1..] == QuoteAll(shown, xs[1..]);
        JoinLex(shown, xs[1..]);
        PlainText(", ");
        AfterAppend(Plain, qs[0], ", ");
        CommentAppend(Plain, qs[0], ", ");
        AfterAppend(Plain, qs[0] + ", ", Join(qs[1..], ", "));
        CommentAppend(Plain, qs[0] + ", ", Join(qs[1..], ", "));
      }
    }
  }

  lemma ArrayLex(shown: Printable, xs: seq<string>)
    ensures var a := Array(shown, xs); After(Plain, a) == Plain && CommentAt(Plain, a) == |a| && '\n' !in a
  {
    var j := Rendered(shown, xs);
    JoinLex(shown, xs);
    PlainText("[");
    PlainText("]");
    AfterAppend(Plain, "[", j);
    CommentAppend(Plain, "[", j);
    AfterAppend(Plain, "[" + j, "]");
    CommentAppend(Plain, "[" + j, "]");
  }

  // ---------------------------------------------------------------- rendered lines

  /** The characters of the keys and section names the repository writes. */
  predicate PlainKey(key: string) {
    key != "" && forall c :: c in key ==> c == '_' || c == '.' || 'a' <= c <= 'z' || '0' <= c <= '9'
  }

  /** A value the scanner passes over from end to end. */
  predicate ClosedValue(value: string) {
    value != "" && Trimmed(value) && CommentAt(Plain, value) == |value| && After(Plain, value) == Plain
  }

  lemma RenderedLineStrips(key: string, value: string)
    requires PlainKey(key) && ClosedValue(value)
    ensures StripComment(key + " = " + value + "\n") == key + " = " + value + "\n"
  {
    var prefix := key + " = ";
    PlainText(prefix);
    PlainText("\n");
    CommentAppend(Plain, prefix, value);
    AfterAppend(Plain, prefix, value);
    CommentAppend(Plain, prefix + value, "\n");
  }

  /** A rendered `key = value` line whose value is closed: the scanner leaves it whole and
      trimming removes only the newline. */
  lemma RenderedLine(key: string, value: string)
    requires PlainKey(key) && ClosedValue(value)
    ensures Trim(StripComment(key + " = " + value + "\n")) == key + " = " + value
  {
    RenderedLineStrips(key, value);
    var line := key + " = " + value;
    assert key[0] in key;
    assert line[0] == key[0] && line[|line| - 1] == value[|value| - 1];
    assert line + "\n" == "" + line + "\n";
    TrimCore("", line, "\n");
  }

  /** The first `=` of a rendered line ends its key, and the line is no header. */
  lemma RenderedKey(key: string, value: string)
    requires PlainKey(key)
    ensures var line := key + " = " + value;
            IndexOf(line, '=') == |key| + 1 && HeaderOf(line) == NotHeader
  {
    var line := key + " = " + value;
    assert key[0] in key;
    assert line[0] == key[0] && line[|key| + 1] == '=';
    assert forall k :: 0 <= k < |key| ==> line[k] == key[k] && key[k] in key;
    assert line[|key|] == ' ';
  }

  /** Key and value of a rendered line, as every reader splits and trims them. */
  lemma RenderedParts(key: string, value: string)
    requires PlainKey(key) && Trimmed(value)
    ensures var line := key + " = " + value;
            var eq := IndexOf(line, '=');
            eq < |line| && Trim(line[..eq]) == key && Trim(line[eq + 1..]) == value
  {
    var line := key + " = " + value;
    RenderedKey(key, value);
    assert line[..|key| + 1] == "" + key + " ";
    assert line[|key| + 2..] == " " + value + "";
    assert key[0] in key && key[|key| - 1] in key;
    TrimCore("", key, " ");
    TrimCore(" ", value, "");
  }

  lemma QuoteIsClosed(shown: Printable, s: string)
    ensures ClosedValue(Quote(shown, s)) && '\n' !in Quote(shown, s)
  {
    QuoteIsTrimmed(shown, s);
    QuoteLex(shown, s);
  }

  lemma ArrayIsClosed(shown: Printable, xs: seq<string>)
    ensures ClosedValue(Array(shown, xs)) && '\n' !in Array(shown, xs)
  {
    ArrayIsTrimmed(shown, xs);
    ArrayLex(shown, xs);
  }

  /** Plain text before a closed value leaves it closed. */
  lemma ClosedJoin(prefix: string, value: string)
    requires prefix != "" && !IsSpace(prefix[0]) && '"' !in prefix && '#' !in prefix && ClosedValue(value)
    ensures ClosedValue(prefix + value)
  {
    PlainText(prefix);
    CommentAppend(Plain, prefix, value);
    AfterAppend(Plain, prefix, value);
  }

  /** Key and value together are closed when the value is. */
  lemma ClosedAssign(key: string, value: string)
    requires PlainKey(key) && ClosedValue(value)
    ensures ClosedValue(key + " = " + value)
  {
    assert key[0] in key;
    ClosedJoin(key + " = ", value);
  }
}
