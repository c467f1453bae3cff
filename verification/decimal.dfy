/** Decimal numerals: what strconv prints and reads. */
module Decimal {
  import opened Text
  import opened Sorting

  predicate AllDigits(s: string) {
    forall i :: 0 <= i < |s| ==> IsDigit(s[i])
  }

  function Digit(c: char): nat
    requires IsDigit(c)
  {
    c as int - '0' as int
  }

  function Value(s: string): nat
    requires AllDigits(s)
  {
    if s == "" then 0 else 10 * Value(s[..|s| - 1]) + Digit(s[|s| - 1])
  }

  function Itoa(n: nat): string {
    (if n < 10 then "" else Itoa(n / 10)) + [('0' as int + n % 10) as char]
  }

  /** A numeral without superfluous leading zeros. */
  predicate Canonical(s: string) {
    s != "" && AllDigits(s) && (|s| > 1 ==> s[0] != '0')
  }

  function Pow10(k: nat): nat {
    if k == 0 then 1 else 10 * Pow10(k - 1)
  }

  lemma {:induction false} ItoaRoundTrip(n: nat)
    ensures Canonical(Itoa(n)) && Value(Itoa(n)) == n
    ensures n > 0 ==> Itoa(n)[0] != '0'
  {
    var s := Itoa(n);
    if n >= 10 {
      ItoaRoundTrip(n / 10);
      assert s[0] == Itoa(n / 10)[0];
      assert s[..|s| - 1] == Itoa(n / 10);
    } else {
      assert s[..|s| - 1] == "";
    }
  }

  lemma {:induction false} ValueBelow(s: string)
    requires AllDigits(s)
    ensures Value(s) < Pow10(|s|)
  {
    if s != "" { ValueBelow(s[..|s| - 1]); }
  }

  lemma {:induction false} ValueAtLeast(s: string)
    requires AllDigits(s) && s != "" && s[0] != '0'
    ensures Pow10(|s| - 1) <= Value(s)
  {
    if |s| > 1 {
      ValueAtLeast(s[..|s| - 1]);
    } else {
      assert s[..0] == "";
    }
  }

  lemma {:induction false} Pow10Grows(a: nat, b: nat)
    requires a <= b
    ensures Pow10(a) <= Pow10(b)
  {
    if a < b { Pow10Grows(a, b - 1); }
  }

  lemma ShorterIsLess(a: string, b: string)
    requires Canonical(a) && Canonical(b) && |a| < |b|
    ensures Value(a) < Value(b)
  {
    ValueBelow(a);
    Pow10Grows(|a|, |b| - 1);
    ValueAtLeast(b);
  }

  /** On numerals of one length, text order is numeric order. */
  lemma {:induction false} SameLengthOrder(a: string, b: string)
    requires AllDigits(a) && AllDigits(b) && |a| == |b|
    ensures Less(a, b) <==> Value(a) < Value(b)
    ensures a == b <==> Value(a) == Value(b)
  {
    if a != "" {
      var k := |a| - 1;
      SameLengthOrder(a[..k], b[..k]);
      LessAppend(a[..k], b[..k], a[k], b[k]);
      assert a == a[..k] + [a[k]] && b == b[..k] + [b[k]];
    }
  }

  lemma {:induction false} LessAppend(a: string, b: string, c: char, d: char)
    requires |a| == |b|
    ensures Less(a + [c], b + [d]) <==> Less(a, b) || (a == b && c < d)
  {
    if a == "" {
      assert a + [c] == [c] && b + [d] == [d];
    } else {
      assert (a + [c])[1..] == a[1..] + [c] && (b + [d])[1..] == b[1..] + [d];
      LessAppend(a[1..], b[1..], c, d);
      assert a == [a[0]] + a[1..] && b == [b[0]] + b[1..];
    }
  }

  /** Length first, then text: the numeric order of canonical numerals of any size. */
  lemma CanonicalOrder(a: string, b: string)
    requires Canonical(a) && Canonical(b)
    ensures |a| < |b| || (|a| == |b| && Less(a, b)) <==> Value(a) < Value(b)
    ensures a == b <==> Value(a) == Value(b)
  {
    if |a| < |b| {
      ShorterIsLess(a, b);
    } else if |b| < |a| {
      ShorterIsLess(b, a);
    } else {
      SameLengthOrder(a, b);
    }
  }
}
