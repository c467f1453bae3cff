/**
 * internal/lockfile/lockfile.go: what the references and the times of a lockfile look like,
 * character by character.
 */
module LockedTexts {
  import opened Wrappers
  import opened Text
  import opened Decimal
  import opened LockFile
  import R = Registry

  // ---------------------------------------------------------------- references

  lemma {:induction false} LastIndexIs(s: string, c: char)
    ensures match R.LastIndexOf(s, c)
            case None => c !in s
            case Some(i) => i < |s| && s[i] == c && c !in s[i + 1..]
  {
    if s != "" && s[|s| - 1] != c {
      var front := s[..|s| - 1];
      LastIndexIs(front, c);
      match R.LastIndexOf(front, c) {
        case None => assert s == front + [s[|s| - 1]];
        case Some(i) => assert s[i + 1..] == front[i + 1..] + [s[|s| - 1]];
      }
    }
  }

  lemma InTail(s: string, from: nat, i: nat)
    ensures from <= i < |s| ==> s[i] in s[from..]
  {
    if from <= i < |s| { assert s[from..][i - from] == s[i]; }
  }

  lemma LastIndexAt(s: string, c: char, i: nat)
    requires i < |s| && s[i] == c && c !in s[i + 1..]
    ensures LastIndex(s, c) == i
  {
    LastIndexIs(s, c);
    assert s[i] in s;
    match R.LastIndexOf(s, c) {
      case None =>
      case Some(k) =>
        InTail(s, k + 1, i);
        InTail(s, i + 1, k);
    }
  }

  /** No colon after the last slash. */
  predicate Untagged(name: string) {
    forall i :: 0 <= i < |name| && name[i] == ':' ==> '/' in name[i + 1..]
  }

  lemma TagIsColon(name: string)
    ensures HasTag(name) <==> !Untagged(name)
  {
    LastIndexIs(name, ':');
    LastIndexIs(name, '/');
    if HasTag(name) {
      ColonLast(name, LastIndex(name, ':'), LastIndex(name, '/'));
    } else {
      SlashLast(name, LastIndex(name, ':'), LastIndex(name, '/'));
    }
  }

  lemma ColonLast(name: string, colon: int, slash: int)
    requires -1 <= slash < colon < |name| && name[colon] == ':' && '/' !in name[slash + 1..]
    ensures !Untagged(name)
  {
    TailOfTail(name, slash + 1, colon + 1, '/');
  }

  lemma SlashLast(name: string, colon: int, slash: int)
    requires -1 <= colon <= slash < |name| && (slash >= 0 ==> name[slash] == '/') && ':' !in name[colon + 1..]
    ensures Untagged(name)
  {
    forall i | 0 <= i < |name| && name[i] == ':' ensures '/' in name[i + 1..] {
      var after: nat := colon + 1;
      InTail(name, after, i);
      InTail(name, i + 1, slash);
    }
  }

  lemma TailOfTail(s: string, from: nat, later: nat, c: char)
    requires from <= later <= |s| && c !in s[from..]
    ensures c !in s[later..]
  {
    assert s[later..] == s[from..][later - from..];
  }

  /** The repository of a reference is what stands before its tag and its digest. */
  lemma RepositoryReads(name: string, tag: string, digest: string)
    requires '@' !in name && Untagged(name) && '@' !in tag && ':' !in tag && '/' !in tag
    ensures ImageRepository(name) == name
    ensures ImageRepository(name + ":" + tag) == name
    ensures ImageRepository(name + "@" + digest) == name
    ensures ImageRepository(name + ":" + tag + "@" + digest) == name
  {
    var tagged := name + ":" + tag;
    TaggedName(name, tag);
    TagIsColon(name);
    IndexAfter(name, '@', digest);
    IndexAfter(tagged, '@', digest);
    assert name[..|name|] == name && tagged[..|tagged|] == tagged;
    assert (name + "@" + digest)[..|name|] == name;
    assert (tagged + "@" + digest)[..|tagged|] == tagged;
  }

  lemma TaggedName(name: string, tag: string)
    requires '@' !in name && '@' !in tag && ':' !in tag && '/' !in tag
    ensures var tagged := name + ":" + tag;
            '@' !in tagged && HasTag(tagged) && LastIndex(tagged, ':') == |name| && tagged[..|name|] == name
  {
    var tagged := name + ":" + tag;
    assert tagged[|name| + 1..] == tag && tagged[|name|] == ':';
    LastIndexAt(tagged, ':', |name|);
    TagIsColon(tagged);
  }

  /** An immutable reference is a repository without tag, one `@`, and a digest. */
  lemma SplitReads(env: Env, ref: string, repo: string, digest: string)
    ensures SplitDigest(env, ref) == Some((repo, digest)) <==>
            && ref == repo + "@" + digest && repo != "" && '@' !in repo && Untagged(repo)
            && |digest| == 71 && "sha256:" <= digest && (forall i :: 7 <= i < 71 ==> IsHex(digest[i]))
            && CanonicalRepository(env, repo).Some?
  {
    if SplitDigest(env, ref) == Some((repo, digest)) {
      FirstIndex(ref, '@');
      TagIsColon(repo);
      assert ref == repo + "@" + digest;
    }
    if ref == repo + "@" + digest && '@' !in repo && ValidImageId(digest) && Untagged(repo) {
      IndexAfter(repo, '@', digest);
      TagIsColon(repo);
      DigestIsPlain(digest);
      assert ref[..|repo|] == repo && ref[|repo| + 1..] == digest;
    }
  }

  lemma {:induction false} FirstIndex(s: string, c: char)
    ensures var i := IndexOf(s, c); c !in s[..i] && (i < |s| ==> s[i] == c && s == s[..i] + [c] + s[i + 1..])
  {
  }

  lemma DigestIsPlain(digest: string)
    requires ValidImageId(digest)
    ensures '@' !in digest
  {
    forall i | 0 <= i < |digest| ensures digest[i] != '@' {
      if i < 7 { assert digest[i] == SHA256_PREFIX[i]; }
    }
  }

  lemma HubGoes(hub: string, i: nat, rest: string)
    requires i < |HUBS| && hub == HUBS[i]
    ensures WithoutHub(hub + rest) == rest
  {
    assert (hub + rest)[0] == hub[0] && (hub + rest)[..|hub|] == hub;
    assert (hub + rest)[|hub|..] == rest;
    assert HUBS[0][0] == 'd' && HUBS[1][0] == 'i' && HUBS[2][0] == 'r';
  }

  lemma HubHasSlash(hub: string, i: nat, name: string)
    requires i < |HUBS| && hub == HUBS[i] && hub <= name
    ensures '/' in name
  {
    assert hub[|hub| - 1] == '/' && name[|hub| - 1] == hub[|hub| - 1];
  }

  lemma NoHub(name: string)
    requires forall j :: 0 <= j < |HUBS| ==> !(HUBS[j] <= name)
    ensures WithoutHub(name) == name
  {
  }

  lemma PrefixHolds(word: string, name: string, k: nat)
    requires k < |word|
    ensures word <= name ==> word[k] in name
  {
    if word <= name { assert name[k] == word[k]; }
  }

  lemma PlainName(name: string)
    requires '/' !in name
    ensures WithoutHub(name) == name && HubName(name) == name
  {
    forall j: nat | j < |HUBS| ensures !(HUBS[j] <= name) {
      if HUBS[j] <= name { HubHasSlash(HUBS[j], j, name); }
    }
    NoHub(name);
    PrefixHolds(LIBRARY, name, 7);
    assert LIBRARY[7] == '/';
  }

  lemma LibraryGoes(repo: string, name: string)
    requires WithoutHub(repo) == LIBRARY + name && '/' !in name
    ensures HubName(repo) == name
  {
    assert (LIBRARY + name)[|LIBRARY|..] == name;
  }

  lemma LibraryIsNoHub(name: string)
    ensures WithoutHub(LIBRARY + name) == LIBRARY + name
  {
    assert (LIBRARY + name)[0] == 'l';
    assert HUBS[0][0] == 'd' && HUBS[1][0] == 'i' && HUBS[2][0] == 'r';
  }

  /** The names a Docker Hub image goes by. */
  lemma HubNames(name: string, i: nat)
    requires '/' !in name && i < |HUBS|
    ensures HUBS == ["docker.io/", "index.docker.io/", "registry-1.docker.io/"] && LIBRARY == "library/"
    ensures HubName(name) == name && HubName(LIBRARY + name) == name
    ensures HubName(HUBS[i] + name) == name && HubName(HUBS[i] + (LIBRARY + name)) == name
  {
    PlainName(name);
    LibraryIsNoHub(name);
    LibraryGoes(LIBRARY + name, name);
    HubGoes(HUBS[i], i, name);
    HubGoes(HUBS[i], i, LIBRARY + name);
    LibraryGoes(HUBS[i] + (LIBRARY + name), name);
    SameFold(HUBS[i] + name, name);
  }

  lemma SameFold(a: string, b: string)
    requires WithoutHub(a) == WithoutHub(b)
    ensures HubName(a) == HubName(b)
  {
  }

  /** Elsewhere, and below a user's name, only the hub goes. */
  lemma OtherNames(repo: string, i: nat)
    requires i < |HUBS| && !(LIBRARY <= repo) && forall j :: 0 <= j < |HUBS| ==> !(HUBS[j] <= repo)
    ensures HubName(repo) == repo && HubName(HUBS[i] + repo) == repo
  {
    NoHub(repo);
    HubGoes(HUBS[i], i, repo);
    SameFold(HUBS[i] + repo, repo);
  }

  // ---------------------------------------------------------------- times

  function Dig(n: nat): char
    requires n < 10
  {
    ('0' as int + n) as char
  }

  function Two(n: nat): string
    requires n < 100
  {
    [Dig(n / 10), Dig(n % 10)]
  }

  function Four(n: nat): string
    requires n < 10000
  {
    Two(n / 100) + Two(n % 100)
  }

  lemma TwoReads(s: string)
    requires |s| == 2 && AllDigits(s)
    ensures Number(s) < 100 && Two(Number(s)) == s
  {
    assert s[..1] == [s[0]] && s[..1][..0] == "";
    assert Value(s[..1]) == Digit(s[0]);
    assert Value(s) == 10 * Digit(s[0]) + Digit(s[1]);
  }

  lemma TwoValue(n: nat)
    requires n < 100
    ensures AllDigits(Two(n)) && Number(Two(n)) == n
  {
    var s := Two(n);
    assert s[..1] == [s[0]] && s[..1][..0] == "";
    assert Value(s[..1]) == Digit(s[0]);
  }

  lemma FourIsTwos(a: string, b: string)
    requires |a| == 2 && |b| == 2 && AllDigits(a) && AllDigits(b)
    ensures AllDigits(a + b) && Number(a + b) == 100 * Number(a) + Number(b)
  {
    var s := a + b;
    assert b[..1] == [b[0]] && b[..1][..0] == "" && s[..3] == a + [b[0]] && s[..3][..2] == a;
    assert Value(b[..1]) == Digit(b[0]);
    assert Value(s[..3]) == 10 * Value(a) + Digit(b[0]);
    assert Value(s) == 10 * Value(s[..3]) + Digit(b[1]);
  }

  lemma FourReads(s: string)
    requires |s| == 4 && AllDigits(s)
    ensures Number(s) < 10000 && Four(Number(s)) == s
  {
    var a, b := s[..2], s[2..];
    assert s == a + b;
    FourIsTwos(a, b);
    TwoReads(a);
    TwoReads(b);
    FourOf(Number(a), Number(b), a, b);
  }

  lemma FourOf(x: nat, y: nat, a: string, b: string)
    requires x < 100 && y < 100 && Two(x) == a && Two(y) == b
    ensures 100 * x + y < 10000 && Four(100 * x + y) == a + b
  {
    assert (100 * x + y) / 100 == x && (100 * x + y) % 100 == y;
  }

  lemma FourValue(n: nat)
    requires n < 10000
    ensures AllDigits(Four(n)) && Number(Four(n)) == n
  {
    TwoValue(n / 100);
    TwoValue(n % 100);
    FourIsTwos(Two(n / 100), Two(n % 100));
  }

  datatype Time = Time(year: nat, month: nat, day: nat, hour: nat, minute: nat, second: nat)

  predicate IsLeap(year: nat) {
    year % 400 == 0 || (year % 4 == 0 && year % 100 != 0)
  }

  predicate IsTime(t: Time) {
    && t.year <= 9999 && 1 <= t.month <= 12 && 1 <= t.day <= 31
    && (t.month in {4, 6, 9, 11} ==> t.day <= 30)
    && (t.month == 2 ==> t.day <= 29 && (t.day == 29 ==> IsLeap(t.year)))
    && t.hour <= 23 && t.minute <= 59 && t.second <= 59
  }

  /** 2006-01-02T15:04:05Z */
  function TimeText(t: Time): string
    requires IsTime(t)
  {
    Stamp(Four(t.year), Two(t.month), Two(t.day), Two(t.hour), Two(t.minute), Two(t.second))
  }

  function Stamp(y: string, m: string, d: string, h: string, i: string, s: string): string {
    (y + "-" + m + "-" + d + "T") + (h + ":" + i + ":" + s + "Z")
  }

  function TimeOf(s: string): Time
    requires |s| == 20
  {
    Time(Number(s[..4]), Number(s[5..7]), Number(s[8..10]), Number(s[11..13]), Number(s[14..16]), Number(s[17..19]))
  }

  /** The pieces of a stamp. */
  predicate Stamped(t: string, y: string, m: string, d: string, h: string, i: string, s: string) {
    && |t| == 20 && t[..4] == y && t[5..7] == m && t[8..10] == d && t[11..13] == h && t[14..16] == i && t[17..19] == s
    && t[4] == '-' && t[7] == '-' && t[10] == 'T' && t[13] == ':' && t[16] == ':' && t[19] == 'Z'
  }

  lemma DateHalf(y: string, m: string, d: string)
    requires |y| == 4 && |m| == 2 && |d| == 2
    ensures var t := y + "-" + m + "-" + d + "T";
            |t| == 11 && t[..4] == y && t[5..7] == m && t[8..10] == d && t[4] == '-' && t[7] == '-' && t[10] == 'T'
  {
  }

  lemma ClockHalf(h: string, i: string, s: string)
    requires |h| == 2 && |i| == 2 && |s| == 2
    ensures var t := h + ":" + i + ":" + s + "Z";
            |t| == 9 && t[..2] == h && t[3..5] == i && t[6..8] == s && t[2] == ':' && t[5] == ':' && t[8] == 'Z'
  {
  }

  lemma BothHalves(a: string, b: string)
    requires |a| == 11 && |b| == 9
    ensures var t := a + b;
            && |t| == 20 && t[..4] == a[..4] && t[5..7] == a[5..7] && t[8..10] == a[8..10]
            && t[11..13] == b[..2] && t[14..16] == b[3..5] && t[17..19] == b[6..8]
            && t[4] == a[4] && t[7] == a[7] && t[10] == a[10] && t[13] == b[2] && t[16] == b[5] && t[19] == b[8]
  {
  }

  lemma StampIsStamped(y: string, m: string, d: string, h: string, i: string, s: string)
    requires |y| == 4 && |m| == 2 && |d| == 2 && |h| == 2 && |i| == 2 && |s| == 2
    ensures Stamped(Stamp(y, m, d, h, i, s), y, m, d, h, i, s)
  {
    DateHalf(y, m, d);
    ClockHalf(h, i, s);
    BothHalves(y + "-" + m + "-" + d + "T", h + ":" + i + ":" + s + "Z");
  }

  lemma TimeIsStamped(t: Time)
    requires IsTime(t)
    ensures Stamped(TimeText(t), Four(t.year), Two(t.month), Two(t.day), Two(t.hour), Two(t.minute), Two(t.second))
  {
    StampIsStamped(Four(t.year), Two(t.month), Two(t.day), Two(t.hour), Two(t.minute), Two(t.second));
  }

  lemma PartsAreNumbers(t: Time)
    requires IsTime(t)
    ensures Number(Four(t.year)) == t.year && Number(Two(t.month)) == t.month && Number(Two(t.day)) == t.day
    ensures Number(Two(t.hour)) == t.hour && Number(Two(t.minute)) == t.minute && Number(Two(t.second)) == t.second
    ensures AllDigits(Four(t.year)) && AllDigits(Two(t.month)) && AllDigits(Two(t.day))
    ensures AllDigits(Two(t.hour)) && AllDigits(Two(t.minute)) && AllDigits(Two(t.second))
  {
    FourValue(t.year);
    TwoValue(t.month);
    TwoValue(t.day);
    TwoValue(t.hour);
    TwoValue(t.minute);
    TwoValue(t.second);
  }

  /** A stamp of digits is accepted exactly when its numbers are a time. */
  lemma AcceptsTime(s: string, t: Time)
    requires |s| == 20 && Stamped(s, s[..4], s[5..7], s[8..10], s[11..13], s[14..16], s[17..19])
    requires AllDigits(s[..4]) && AllDigits(s[5..7]) && AllDigits(s[8..10])
    requires AllDigits(s[11..13]) && AllDigits(s[14..16]) && AllDigits(s[17..19])
    requires t == TimeOf(s) && t.year <= 9999
    ensures UtcSeconds(s) <==> IsTime(t)
  {
  }

  /** Every second of the years 0 to 9999 is accepted as it is printed, */
  lemma PrintedTimeIsAccepted(t: Time)
    requires IsTime(t)
    ensures UtcSeconds(TimeText(t)) && TimeOf(TimeText(t)) == t
  {
    TimeIsStamped(t);
    PartsAreNumbers(t);
    AcceptsTime(TimeText(t), t);
  }

  /** and nothing else is. */
  lemma AcceptedTimeIsPrinted(s: string)
    requires UtcSeconds(s)
    ensures IsTime(TimeOf(s)) && TimeText(TimeOf(s)) == s
  {
    var t := TimeOf(s);
    FourReads(s[..4]);
    AcceptsTime(s, t);
    PiecesPrint(s);
    TimeIsStamped(t);
    SameInPieces(s, TimeText(t));
  }

  lemma PiecesPrint(s: string)
    requires UtcSeconds(s) && IsTime(TimeOf(s))
    ensures var t := TimeOf(s);
            && Four(t.year) == s[..4] && Two(t.month) == s[5..7] && Two(t.day) == s[8..10]
            && Two(t.hour) == s[11..13] && Two(t.minute) == s[14..16] && Two(t.second) == s[17..19]
  {
    FourReads(s[..4]);
    TwoReads(s[5..7]);
    TwoReads(s[8..10]);
    TwoReads(s[11..13]);
    TwoReads(s[14..16]);
    TwoReads(s[17..19]);
  }

  lemma SameInPieces(s: string, u: string)
    requires |s| == 20 && |u| == 20 && s[..4] == u[..4] && s[5..7] == u[5..7] && s[8..10] == u[8..10]
    requires s[11..13] == u[11..13] && s[14..16] == u[14..16] && s[17..19] == u[17..19]
    requires s[4] == u[4] && s[7] == u[7] && s[10] == u[10] && s[13] == u[13] && s[16] == u[16] && s[19] == u[19]
    ensures s == u
  {
    assert s == s[..4] + [s[4]] + s[5..7] + [s[7]] + s[8..10] + [s[10]] + s[11..13] + [s[13]] + s[14..16] + [s[16]]
                + s[17..19] + [s[19]];
    assert u == u[..4] + [u[4]] + u[5..7] + [u[7]] + u[8..10] + [u[10]] + u[11..13] + [u[13]] + u[14..16] + [u[16]]
                + u[17..19] + [u[19]];
  }
}
