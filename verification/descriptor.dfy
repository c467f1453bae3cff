/**
 * internal/aclaudit/descriptor.go: the parser of self-relative Windows security descriptors,
 * against the layouts of [MS-DTYP] sections 2.4.2.2 (SID), 2.4.4.1 (ACE_HEADER), 2.4.5 (ACL)
 * and 2.4.6 (SECURITY_DESCRIPTOR). SHA-256 is taken to be injective, so the recorded hash is
 * the raw bytes.
 */
module Descriptor {
  import opened Wrappers
  import opened Octets
  import opened Endian
  import opened Decimal

  const MAX_ACES: nat := 4096
  const AUTHORITY_SIZE: nat := 6
  const MAX_DESCRIPTOR: nat := 65536

  datatype Ace = Ace(kind: nat, flags: nat, mask: nat, sid: string)

  datatype Descriptor = Descriptor(owner: string, control: nat, nullDacl: bool, aces: seq<Ace>, hash: Bytes)

  datatype Fault =
    | BadSize | NotSelfRelative | BadOwner | BadSid | BadDaclOffset | BadRevision | BadDacl
    | TruncatedHeader | BadAceSize | TruncatedAce | UnsupportedPayload

  // ---------------------------------------------------------------- the format

  /** A security identifier: a 48-bit authority and up to fifteen 32-bit subauthorities. */
  datatype Sid = Sid(authority: nat, subs: seq<nat>)

  predicate ValidSid(sid: Sid) {
    && sid.authority < Limit(AUTHORITY_SIZE) && |sid.subs| <= 15
    && forall i :: 0 <= i < |sid.subs| ==> sid.subs[i] < Limit(4)
  }

  function Low(n: nat): Byte {
    (n % 0x100) as Byte
  }

  function SubsText(subs: seq<nat>): string {
    if subs == [] then "" else "-" + Itoa(subs[0]) + SubsText(subs[1..])
  }

  function SidText(sid: Sid): string {
    "S-1-" + Itoa(sid.authority) + SubsText(sid.subs)
  }

  function SubsBytes(subs: seq<nat>): (b: Bytes)
    ensures |b| == 4 * |subs|
  {
    if subs == [] then [] else ToLittle(subs[0], 4) + SubsBytes(subs[1..])
  }

  function SidBytes(sid: Sid): (b: Bytes)
    ensures |b| == 8 + 4 * |sid.subs|
  {
    [1, Low(|sid.subs|)] + ToBig(sid.authority, AUTHORITY_SIZE) + SubsBytes(sid.subs)
  }

  /** An access-allowed (0) or access-denied (1) entry, or one of a kind that is not read on. */
  datatype Entry =
    | Standard(denied: bool, flags: nat, mask: nat, sid: Sid)
    | Other(kind: nat, flags: nat, body: Bytes)

  predicate ValidEntry(e: Entry) {
    match e
    case Standard(_, flags, mask, sid) => flags < 0x100 && mask < Limit(4) && ValidSid(sid)
    case Other(kind, flags, body) => 2 <= kind < 0x100 && flags < 0x100 && |body| % 4 == 0 && 4 + |body| < Limit(2)
  }

  function EntryBytes(e: Entry): (b: Bytes)
    ensures |b| == if e.Standard? then 16 + 4 * |e.sid.subs| else 4 + |e.body|
  {
    match e
    case Standard(denied, flags, mask, sid) =>
      [if denied then 1 else 0, Low(flags)] + ToLittle(16 + 4 * |sid.subs|, 2) + (ToLittle(mask, 4) + SidBytes(sid))
    case Other(kind, flags, body) =>
      [Low(kind), Low(flags)] + ToLittle(4 + |body|, 2) + body
  }

  /** The pieces of a list of entries. */
  function Pieces(es: seq<Entry>): seq<Bytes> {
    seq(|es|, i requires 0 <= i < |es| => EntryBytes(es[i]))
  }

  function Flatten(ps: seq<Bytes>): Bytes {
    if ps == [] then [] else ps[0] + Flatten(ps[1..])
  }

  predicate ValidEntries(es: seq<Entry>) {
    forall i :: 0 <= i < |es| ==> ValidEntry(es[i])
  }

  /** What is read of an entry. */
  function EntryAce(e: Entry): Ace {
    match e
    case Standard(denied, flags, mask, sid) => Ace(if denied then 1 else 0, flags, mask, SidText(sid))
    case Other(kind, flags, body) => Ace(kind, flags, if |body| >= 4 then Little(body[..4]) else 0, "")
  }

  function EntriesAces(es: seq<Entry>): seq<Ace> {
    seq(|es|, i requires 0 <= i < |es| => EntryAce(es[i]))
  }

  // ---------------------------------------------------------------- reading

  function Word(data: Bytes, at: nat, width: nat): nat
    requires at + width <= |data|
  {
    Little(data[at..at + width])
  }

  function ReadSubs(data: Bytes, at: nat, n: nat): (subs: seq<nat>)
    requires at + 4 * n <= |data|
    ensures |subs| == n
    decreases n
  {
    if n == 0 then [] else [Word(data, at, 4)] + ReadSubs(data, at + 4, n - 1)
  }

  function SidAt(data: Bytes, offset: nat): Option<Sid> {
    if offset + 8 > |data| || data[offset] != 1 then None
    else
      var n := data[offset + 1] as nat;
      if n > 15 || offset + 8 + 4 * n > |data| then None
      else Some(Sid(Big(data[offset + 2..offset + 8]), ReadSubs(data, offset + 8, n)))
  }

  function SidTextAt(data: Bytes, offset: int): Option<string> {
    if offset < 0 then None
    else match SidAt(data, offset) case None => None case Some(sid) => Some(SidText(sid))
  }

  /** One entry, already cut out of the list. */
  function ReadAce(entry: Bytes): Result<Ace, Fault>
    requires |entry| >= 4
  {
    var kind, flags := entry[0] as nat, entry[1] as nat;
    var mask := if |entry| >= 8 then Word(entry, 4, 4) else 0;
    if kind > 1 then Ok(Ace(kind, flags, mask, ""))
    else if |entry| < 16 then Err(TruncatedAce)
    else
      match SidAt(entry, 8)
      case None => Err(BadSid)
      case Some(sid) =>
        if |entry| != 16 + 4 * (entry[9] as nat) then Err(UnsupportedPayload)
        else Ok(Ace(kind, flags, mask, SidText(sid)))
  }

  function ReadAces(acl: Bytes, pos: nat, count: nat): Result<seq<Ace>, Fault>
    decreases count
  {
    if count == 0 then Ok([])
    else if pos + 4 > |acl| then Err(TruncatedHeader)
    else
      var size := Word(acl, pos + 2, 2);
      if size < 4 || size % 4 != 0 || pos + size > |acl| then Err(BadAceSize)
      else
        match ReadAce(acl[pos..pos + size])
        case Err(fault) => Err(fault)
        case Ok(a) => Prepend([a], ReadAces(acl, pos + size, count - 1))
  }

  function Prepend(head: seq<Ace>, r: Result<seq<Ace>, Fault>): Result<seq<Ace>, Fault> {
    match r case Err(fault) => Err(fault) case Ok(rest) => Ok(head + rest)
  }

  lemma PrependNothing(r: Result<seq<Ace>, Fault>)
    ensures Prepend([], r) == r
  {
    if r.Ok? { assert [] + r.value == r.value; }
  }

  lemma PrependTwice(a: seq<Ace>, b: seq<Ace>, r: Result<seq<Ace>, Fault>)
    ensures Prepend(a, Prepend(b, r)) == Prepend(a + b, r)
  {
    if r.Ok? { assert a + (b + r.value) == (a + b) + r.value; }
  }

  predicate Bit(word: nat, mask: nat)
    requires mask > 0
  {
    word / mask % 2 == 1
  }

  function ReadDacl(acl: Bytes): Result<seq<Ace>, Fault>
    requires |acl| >= 8
  {
    if acl[0] != 2 && acl[0] != 4 then Err(BadRevision)
    else
      var size, count := Word(acl, 2, 2), Word(acl, 4, 2);
      if size < 8 || size > |acl| || count > MAX_ACES then Err(BadDacl)
      else ReadAces(acl[..size], 8, count)
  }

  function Decode(raw: Bytes): Result<Descriptor, Fault> {
    if |raw| < 20 || |raw| > MAX_DESCRIPTOR || raw[0] != 1 then Err(BadSize)
    else
      var control, owner, offset := Word(raw, 2, 2), Word(raw, 4, 4), Word(raw, 16, 4);
      if !Bit(control, 0x8000) then Err(NotSelfRelative)
      else if owner < 20 || owner % 4 != 0 || owner >= |raw| then Err(BadOwner)
      else
        match SidAt(raw, owner)
        case None => Err(BadSid)
        case Some(sid) =>
          if !Bit(control, 4) || offset == 0 then Ok(Descriptor(SidText(sid), control, true, [], raw))
          else if offset < 20 || offset % 4 != 0 || offset + 8 > |raw| then Err(BadDaclOffset)
          else
            match ReadDacl(raw[offset..])
            case Err(fault) => Err(fault)
            case Ok(aces) => Ok(Descriptor(SidText(sid), control, false, aces, raw))
  }

  // ---------------------------------------------------------------- the parser's loops

  /** sidAt: every read is inside the buffer. */
  method SidAtLoop(data: Bytes, offset: int) returns (text: Option<string>)
    ensures text == SidTextAt(data, offset)
  {
    if offset < 0 || offset > |data| - 8 || data[offset] != 1 { return None; }
    var n := data[offset + 1] as int;
    if n > 15 || n * 4 > |data| - offset - 8 { return None; }
    var authority: nat := 0;
    for i := 0 to 6
      invariant authority == Big(data[offset + 2..offset + 2 + i])
    {
      authority := 0x100 * authority + (data[offset + 2 + i] as nat);
      assert data[offset + 2..offset + 3 + i][..i] == data[offset + 2..offset + 2 + i];
    }
    var tail := SubsLoop(data, offset + 8, n);
    return Some("S-1-" + Itoa(authority) + tail);
  }

  method SubsLoop(data: Bytes, at: nat, n: nat) returns (parts: string)
    requires at + 4 * n <= |data|
    ensures parts == SubsText(ReadSubs(data, at, n))
  {
    parts := "";
    var pos := at;
    ghost var whole := SubsText(ReadSubs(data, at, n));
    for i := 0 to n
      invariant pos == at + 4 * i && parts + SubsText(ReadSubs(data, pos, n - i)) == whole
    {
      var part := "-" + Itoa(Word(data, pos, 4));
      SubsStep(parts, part, data, pos, n - i);
      parts, pos := parts + part, pos + 4;
    }
    NoSubs(parts, data, pos, 0);
  }

  lemma NoSubs(parts: string, data: Bytes, at: nat, n: nat)
    requires at <= |data| && n == 0
    ensures parts + SubsText(ReadSubs(data, at, n)) == parts
  {
  }

  lemma SubsStep(parts: string, part: string, data: Bytes, at: nat, n: nat)
    requires at + 4 * n <= |data| && n > 0 && part == "-" + Itoa(Word(data, at, 4))
    ensures parts + SubsText(ReadSubs(data, at, n)) == (parts + part) + SubsText(ReadSubs(data, at + 4, n - 1))
  {
    SubsHead(data, at, n);
    assert parts + (part + SubsText(ReadSubs(data, at + 4, n - 1))) == (parts + part) + SubsText(ReadSubs(data, at + 4, n - 1));
  }

  lemma SubsHead(data: Bytes, at: nat, n: nat)
    requires at + 4 * n <= |data| && n > 0
    ensures SubsText(ReadSubs(data, at, n)) == ("-" + Itoa(Word(data, at, 4))) + SubsText(ReadSubs(data, at + 4, n - 1))
  {
    assert ReadSubs(data, at, n)[1..] == ReadSubs(data, at + 4, n - 1);
  }

  /** The entry loop of decodeDescriptor: the cursor never leaves the list. */
  method ReadAcesLoop(acl: Bytes, count: nat) returns (r: Result<seq<Ace>, Fault>)
    requires |acl| >= 8
    ensures r == ReadAces(acl, 8, count)
  {
    var pos := 8;
    var aces: seq<Ace> := [];
    PrependNothing(ReadAces(acl, 8, count));
    for i := 0 to count
      invariant 8 <= pos <= |acl|
      invariant ReadAces(acl, 8, count) == Prepend(aces, ReadAces(acl, pos, count - i))
    {
      if pos > |acl| - 4 { return Err(TruncatedHeader); }
      var entrySize := Word(acl, pos + 2, 2);
      if entrySize < 4 || entrySize % 4 != 0 || entrySize > |acl| - pos { return Err(BadAceSize); }
      var a := ReadAceLoop(acl[pos..pos + entrySize]);
      if a.Err? { return Err(a.error); }
      PrependTwice(aces, [a.value], ReadAces(acl, pos + entrySize, count - i - 1));
      aces := aces + [a.value];
      pos := pos + entrySize;
    }
    assert aces + [] == aces;
    return Ok(aces);
  }

  method ReadAceLoop(entry: Bytes) returns (r: Result<Ace, Fault>)
    requires |entry| >= 4
    ensures r == ReadAce(entry)
  {
    var a := Ace(entry[0] as nat, entry[1] as nat, 0, "");
    if |entry| >= 8 { a := a.(mask := Word(entry, 4, 4)); }
    if a.kind == 0 || a.kind == 1 {
      if |entry| < 16 { return Err(TruncatedAce); }
      var sid := SidAtLoop(entry, 8);
      if sid.None? { return Err(BadSid); }
      a := a.(sid := sid.value);
      if |entry| != 16 + 4 * (entry[9] as int) { return Err(UnsupportedPayload); }
    }
    return Ok(a);
  }

  method DecodeLoop(raw: Bytes) returns (r: Result<Descriptor, Fault>)
    ensures r == Decode(raw)
  {
    if |raw| < 20 || |raw| > MAX_DESCRIPTOR || raw[0] != 1 { return Err(BadSize); }
    var control := Word(raw, 2, 2);
    if !Bit(control, 0x8000) { return Err(NotSelfRelative); }
    var owner := Word(raw, 4, 4);
    if owner < 20 || owner % 4 != 0 || owner >= |raw| { return Err(BadOwner); }
    var sid := SidAtLoop(raw, owner);
    if sid.None? { return Err(BadSid); }
    var offset := Word(raw, 16, 4);
    if !Bit(control, 4) || offset == 0 { return Ok(Descriptor(sid.value, control, true, [], raw)); }
    if offset < 20 || offset % 4 != 0 || offset > |raw| - 8 { return Err(BadDaclOffset); }
    var acl := raw[offset..];
    if acl[0] != 2 && acl[0] != 4 { return Err(BadRevision); }
    var size, count := Word(acl, 2, 2), Word(acl, 4, 2);
    if size < 8 || size > |acl| || count > MAX_ACES { return Err(BadDacl); }
    var aces := ReadAcesLoop(acl[..size], count);
    if aces.Err? { return Err(aces.error); }
    return Ok(Descriptor(sid.value, control, false, aces.value, raw));
  }

  // ---------------------------------------------------------------- decoding inverts layout

  /** `part` stands in `data` at `at`. */
  predicate At(data: Bytes, at: nat, part: Bytes) {
    at + |part| <= |data| && data[at..at + |part|] == part
  }

  lemma AtPart(data: Bytes, at: nat, whole: Bytes, skip: nat, part: Bytes)
    requires At(data, at, whole) && At(whole, skip, part)
    ensures At(data, at + skip, part)
  {
    forall i | 0 <= i < |part| ensures data[at + skip + i] == part[i] {
      assert whole[skip + i] == whole[skip..skip + |part|][i];
      assert data[at + skip + i] == data[at..at + |whole|][skip + i];
    }
  }

  lemma {:induction false} SubsRoundTrip(data: Bytes, at: nat, subs: seq<nat>)
    requires At(data, at, SubsBytes(subs)) && forall i :: 0 <= i < |subs| ==> subs[i] < Limit(4)
    ensures ReadSubs(data, at, |subs|) == subs
    decreases |subs|
  {
    if subs != [] {
      var head, tail := ToLittle(subs[0], 4), SubsBytes(subs[1..]);
      assert At(SubsBytes(subs), 0, head) && At(SubsBytes(subs), 4, tail);
      AtPart(data, at, SubsBytes(subs), 0, head);
      AtPart(data, at, SubsBytes(subs), 4, tail);
      LittleRoundTrip(subs[0], 4);
      SubsRoundTrip(data, at + 4, subs[1..]);
    }
  }

  lemma SidRoundTrip(data: Bytes, at: nat, sid: Sid)
    requires ValidSid(sid) && At(data, at, SidBytes(sid))
    ensures SidAt(data, at) == Some(sid)
    ensures data[at + 1] as nat == |sid.subs|
  {
    BigRoundTrip(sid.authority, AUTHORITY_SIZE);
    SidInPlace(data, at, Low(|sid.subs|), ToBig(sid.authority, AUTHORITY_SIZE), SubsBytes(sid.subs));
    SubsRoundTrip(data, at + 8, sid.subs);
  }

  lemma SidInPlace(data: Bytes, at: nat, count: Byte, authority: Bytes, subs: Bytes)
    requires |authority| == 6 && At(data, at, [1, count] + authority + subs)
    ensures data[at] == 1 && data[at + 1] == count && data[at + 2..at + 8] == authority && At(data, at + 8, subs)
  {
    var b := [1, count] + authority + subs;
    assert data[at] == b[0] && data[at + 1] == b[1];
    assert At(b, 2, authority) && At(b, 8, subs);
    AtPart(data, at, b, 2, authority);
    AtPart(data, at, b, 8, subs);
  }

  lemma EntryHeader(e: Entry)
    requires ValidEntry(e)
    ensures Word(EntryBytes(e), 2, 2) == |EntryBytes(e)| && |EntryBytes(e)| % 4 == 0
  {
    var b := EntryBytes(e);
    Limits();
    LittleRoundTrip(|b|, 2);
    assert b[2..4] == ToLittle(|b|, 2);
  }

  lemma EntryRoundTrip(e: Entry)
    requires ValidEntry(e)
    ensures ReadAce(EntryBytes(e)) == Ok(EntryAce(e))
  {
    match e {
      case Standard(denied, flags, mask, sid) => StandardRoundTrip(denied, flags, mask, sid);
      case Other(_, _, body) => if |body| >= 4 { assert EntryBytes(e)[4..8] == body[..4]; }
    }
  }

  lemma StandardRoundTrip(denied: bool, flags: nat, mask: nat, sid: Sid)
    requires ValidEntry(Standard(denied, flags, mask, sid))
    ensures var e := Standard(denied, flags, mask, sid); ReadAce(EntryBytes(e)) == Ok(EntryAce(e))
  {
    var b := EntryBytes(Standard(denied, flags, mask, sid));
    LittleRoundTrip(mask, 4);
    assert b[4..8] == ToLittle(mask, 4);
    assert b[8..] == SidBytes(sid);
    SidRoundTrip(b, 8, sid);
  }

  /** The pieces stand one after the other. */
  predicate PiecesAt(acl: Bytes, pos: nat, ps: seq<Bytes>)
    decreases |ps|
  {
    ps == [] || (At(acl, pos, ps[0]) && PiecesAt(acl, pos + |ps[0]|, ps[1..]))
  }

  function Size(ps: seq<Bytes>): nat {
    if ps == [] then 0 else |ps[0]| + Size(ps[1..])
  }

  /** A piece that carries its size and is read as the given entry. */
  predicate Reads(p: Bytes, a: Ace) {
    |p| >= 4 && |p| % 4 == 0 && Word(p, 2, 2) == |p| && ReadAce(p) == Ok(a)
  }

  predicate AllRead(ps: seq<Bytes>, aces: seq<Ace>) {
    |ps| == |aces| && forall i :: 0 <= i < |ps| ==> Reads(ps[i], aces[i])
  }

  lemma SizeAt(acl: Bytes, pos: nat, head: Bytes)
    requires At(acl, pos, head) && |head| >= 4
    ensures Word(acl, pos + 2, 2) == Word(head, 2, 2)
  {
    assert acl[pos + 2] == acl[pos..pos + |head|][2] && acl[pos + 3] == acl[pos..pos + |head|][3];
    assert acl[pos + 2..pos + 2 + 2] == head[2..2 + 2];
  }

  lemma ReadOne(acl: Bytes, pos: nat, head: Bytes, a: Ace, count: nat, tail: seq<Ace>)
    requires At(acl, pos, head) && |head| >= 4 && |head| % 4 == 0 && count > 0
    requires Word(acl, pos + 2, 2) == |head| && ReadAce(head) == Ok(a)
    requires ReadAces(acl, pos + |head|, count - 1) == Ok(tail)
    ensures ReadAces(acl, pos, count) == Ok([a] + tail)
  {
  }

  lemma {:induction false} ReadPieces(acl: Bytes, pos: nat, ps: seq<Bytes>, aces: seq<Ace>)
    requires PiecesAt(acl, pos, ps) && AllRead(ps, aces)
    ensures ReadAces(acl, pos, |ps|) == Ok(aces)
    decreases |ps|
  {
    if ps != [] {
      var head := ps[0];
      assert Reads(head, aces[0]);
      ReadPieces(acl, pos + |head|, ps[1..], aces[1..]);
      SizeAt(acl, pos, head);
      ReadOne(acl, pos, head, aces[0], |ps|, aces[1..]);
      assert aces == [aces[0]] + aces[1..];
    }
  }

  lemma EntriesRead(es: seq<Entry>)
    requires ValidEntries(es)
    ensures AllRead(Pieces(es), EntriesAces(es))
  {
    forall i | 0 <= i < |es| ensures Reads(Pieces(es)[i], EntriesAces(es)[i]) {
      EntryHeader(es[i]);
      EntryRoundTrip(es[i]);
    }
  }

  // -------------------- layouts

  /** Where a descriptor has its owner and its list, anywhere after the header, in any order,
      with anything between and behind; no list when the control word or the offset says so. */
  datatype Layout = Layout(control: nat, owner: Sid, ownerAt: nat, daclAt: nat, list: Option<List>)

  /** A discretionary list: its size field, which may count more bytes than the entries take. */
  datatype List = List(size: nat, entries: seq<Entry>)

  predicate ListHeadAt(raw: Bytes, at: nat, size: nat, count: nat) {
    && at + 8 <= at + size <= |raw| && size < Limit(2) && (raw[at] == 2 || raw[at] == 4)
    && At(raw, at + 2, ToLittle(size, 2)) && At(raw, at + 4, ToLittle(count, 2))
  }

  predicate ListAt(raw: Bytes, at: nat, list: List) {
    && ListHeadAt(raw, at, list.size, |list.entries|) && |list.entries| <= MAX_ACES
    && ValidEntries(list.entries) && 8 + Size(Pieces(list.entries)) <= list.size
    && PiecesAt(raw, at + 8, Pieces(list.entries))
  }

  predicate OwnerAt(raw: Bytes, l: Layout) {
    && l.control < Limit(2) && l.control / 0x8000 % 2 == 1 && At(raw, 2, ToLittle(l.control, 2))
    && 20 <= l.ownerAt < Limit(4) && l.ownerAt % 4 == 0 && At(raw, 4, ToLittle(l.ownerAt, 4))
    && ValidSid(l.owner) && At(raw, l.ownerAt, SidBytes(l.owner))
  }

  predicate LaidOut(raw: Bytes, l: Layout) {
    && 20 <= |raw| <= MAX_DESCRIPTOR && raw[0] == 1 && OwnerAt(raw, l)
    && l.daclAt < Limit(4) && At(raw, 16, ToLittle(l.daclAt, 4))
    && match l.list
       case None => l.control / 4 % 2 == 0 || l.daclAt == 0
       case Some(list) => l.control / 4 % 2 == 1 && 20 <= l.daclAt && l.daclAt % 4 == 0 && ListAt(raw, l.daclAt, list)
  }

  /** What a layout says. */
  function Contents(raw: Bytes, l: Layout): Descriptor {
    match l.list
    case None => Descriptor(SidText(l.owner), l.control, true, [], raw)
    case Some(list) => Descriptor(SidText(l.owner), l.control, false, EntriesAces(list.entries), raw)
  }

  lemma WordAt(raw: Bytes, at: nat, n: nat, width: nat)
    requires n < Limit(width) && At(raw, at, ToLittle(n, width))
    ensures at + width <= |raw| && Word(raw, at, width) == n
  {
    LittleRoundTrip(n, width);
  }

  lemma ListHeader(raw: Bytes, at: nat, list: List)
    requires ListAt(raw, at, list)
    ensures var acl := raw[at..];
            |acl| >= 8 && acl[0] == raw[at] && Word(acl, 2, 2) == list.size && Word(acl, 4, 2) == |list.entries|
  {
    var acl := raw[at..];
    Limits();
    LittleRoundTrip(list.size, 2);
    LittleRoundTrip(|list.entries|, 2);
    assert acl[2..4] == raw[at + 2..at + 4] && acl[4..6] == raw[at + 4..at + 6];
  }

  lemma AtInside(raw: Bytes, at: nat, size: nat, skip: nat, part: Bytes)
    requires at + size <= |raw| && skip + |part| <= size
    ensures At(raw[at..][..size], skip, part) <==> At(raw, at + skip, part)
  {
    assert raw[at..][..size][skip..skip + |part|] == raw[at + skip..at + skip + |part|];
  }

  lemma {:induction false} PiecesInside(raw: Bytes, at: nat, size: nat, skip: nat, ps: seq<Bytes>)
    requires at + size <= |raw| && skip + Size(ps) <= size
    ensures PiecesAt(raw[at..][..size], skip, ps) <==> PiecesAt(raw, at + skip, ps)
    decreases |ps|
  {
    if ps != [] {
      AtInside(raw, at, size, skip, ps[0]);
      PiecesInside(raw, at, size, skip + |ps[0]|, ps[1..]);
    }
  }

  lemma ListRoundTrip(raw: Bytes, at: nat, list: List)
    requires ListAt(raw, at, list)
    ensures ReadDacl(raw[at..]) == Ok(EntriesAces(list.entries))
  {
    var ps := Pieces(list.entries);
    ListHeader(raw, at, list);
    PiecesInside(raw, at, list.size, 8, ps);
    EntriesRead(list.entries);
    ReadPieces(raw[at..][..list.size], 8, ps, EntriesAces(list.entries));
  }

  /** Every layout is accepted and decoded to what it says. */
  lemma DecodeInvertsLayout(raw: Bytes, l: Layout)
    requires LaidOut(raw, l)
    ensures Decode(raw) == Ok(Contents(raw, l))
  {
    WordAt(raw, 2, l.control, 2);
    WordAt(raw, 4, l.ownerAt, 4);
    WordAt(raw, 16, l.daclAt, 4);
    SidRoundTrip(raw, l.ownerAt, l.owner);
    if l.list.Some? { ListRoundTrip(raw, l.daclAt, l.list.value); }
  }

  // -------------------- only layouts are accepted

  lemma {:induction false} SubsInverse(data: Bytes, at: nat, n: nat)
    requires at + 4 * n <= |data|
    ensures var subs := ReadSubs(data, at, n);
            (forall i :: 0 <= i < n ==> subs[i] < Limit(4)) && At(data, at, SubsBytes(subs))
    decreases n
  {
    if n > 0 {
      var subs, word := ReadSubs(data, at, n), data[at..at + 4];
      LittleInverse(word);
      SubsInverse(data, at + 4, n - 1);
      assert subs[1..] == ReadSubs(data, at + 4, n - 1);
      assert data[at..at + 4 * n] == word + data[at + 4..at + 4 + 4 * (n - 1)];
    }
  }

  lemma SidInverse(data: Bytes, at: nat)
    requires SidAt(data, at).Some?
    ensures var sid := SidAt(data, at).value;
            ValidSid(sid) && At(data, at, SidBytes(sid)) && |sid.subs| == data[at + 1] as nat
  {
    var n, authority := data[at + 1] as nat, data[at + 2..at + 8];
    SubsInverse(data, at + 8, n);
    BigInverse(authority);
    assert data[at..at + 8 + 4 * n] == [data[at], data[at + 1]] + authority + data[at + 8..at + 8 + 4 * n];
  }

  /** The entry that a cut-out piece of the list is. */
  function EntryOf(b: Bytes): Entry
    requires |b| >= 4
  {
    var kind, flags := b[0] as nat, b[1] as nat;
    if kind <= 1 && |b| >= 16 && SidAt(b, 8).Some? then Standard(kind == 1, flags, Word(b, 4, 4), SidAt(b, 8).value)
    else Other(kind, flags, b[4..])
  }

  lemma EntryInverse(b: Bytes)
    requires |b| >= 4 && |b| % 4 == 0 && Word(b, 2, 2) == |b| && ReadAce(b).Ok?
    ensures ValidEntry(EntryOf(b)) && EntryBytes(EntryOf(b)) == b
  {
    LittleInverse(b[2..4]);
    if b[0] <= 1 {
      StandardInverse(b);
    } else {
      assert b == [b[0], b[1]] + b[2..4] + b[4..];
    }
  }

  lemma StandardInverse(b: Bytes)
    requires |b| >= 16 && Word(b, 2, 2) == |b| && b[0] <= 1 && ReadAce(b).Ok?
    ensures ValidEntry(EntryOf(b)) && EntryBytes(EntryOf(b)) == b
  {
    var sid := SidAt(b, 8).value;
    SidInverse(b, 8);
    LittleInverse(b[4..8]);
    assert EntryOf(b) == Standard(b[0] == 1, b[1] as nat, Word(b, 4, 4), sid);
    StandardBytes(b, sid);
  }

  lemma StandardBytes(b: Bytes, sid: Sid)
    requires |b| == 16 + 4 * |sid.subs| && Word(b, 2, 2) == |b| && b[0] <= 1 && At(b, 8, SidBytes(sid))
    ensures EntryBytes(Standard(b[0] == 1, b[1] as nat, Word(b, 4, 4), sid)) == b
  {
    LittleInverse(b[2..4]);
    LittleInverse(b[4..8]);
    assert b[8..] == SidBytes(sid);
    FiveParts(b);
  }

  lemma FiveParts(b: Bytes)
    requires |b| >= 8
    ensures b == [b[0], b[1]] + b[2..4] + (b[4..8] + b[8..])
  {
  }

  /** The pieces that a list is cut into. */
  function PiecesOf(acl: Bytes, pos: nat, count: nat): (ps: seq<Bytes>)
    requires ReadAces(acl, pos, count).Ok?
    ensures |ps| == count
    decreases count
  {
    if count == 0 then []
    else
      var size := Word(acl, pos + 2, 2);
      [acl[pos..pos + size]] + PiecesOf(acl, pos + size, count - 1)
  }

  lemma CutPiece(acl: Bytes, pos: nat, size: nat)
    requires pos + 4 <= pos + size <= |acl|
    ensures var p := acl[pos..pos + size]; At(acl, pos, p) && |p| == size && Word(p, 2, 2) == Word(acl, pos + 2, 2)
  {
    SliceOfSlice(acl, pos, pos + size, 2, 4);
  }

  lemma SliceOfSlice(data: Bytes, a: nat, b: nat, c: nat, d: nat)
    requires c <= d && a + d <= b <= |data|
    ensures data[a..b][c..d] == data[a + c..a + d]
  {
    forall i | 0 <= i < d - c ensures data[a..b][c..d][i] == data[a + c..a + d][i] {
      assert data[a..b][c + i] == data[a + c + i];
    }
  }

  /** The first piece of a list that is read, and the rest. */
  lemma FirstPiece(acl: Bytes, pos: nat, count: nat, size: nat)
    requires ReadAces(acl, pos, count).Ok? && count > 0 && pos + 4 <= |acl| && size == Word(acl, pos + 2, 2)
    ensures 4 <= size && size % 4 == 0 && pos + size <= |acl| && ReadAce(acl[pos..pos + size]).Ok?
    ensures ReadAces(acl, pos + size, count - 1).Ok?
    ensures ReadAces(acl, pos, count).value == [ReadAce(acl[pos..pos + size]).value] + ReadAces(acl, pos + size, count - 1).value
    ensures PiecesOf(acl, pos, count) == [acl[pos..pos + size]] + PiecesOf(acl, pos + size, count - 1)
  {
  }

  lemma {:induction false} PiecesInverse(acl: Bytes, pos: nat, count: nat)
    requires ReadAces(acl, pos, count).Ok? && pos <= |acl|
    ensures var ps := PiecesOf(acl, pos, count);
            PiecesAt(acl, pos, ps) && pos + Size(ps) <= |acl| && AllRead(ps, ReadAces(acl, pos, count).value)
    decreases count
  {
    if count > 0 {
      var size := Word(acl, pos + 2, 2);
      FirstPiece(acl, pos, count, size);
      CutPiece(acl, pos, size);
      PiecesInverse(acl, pos + size, count - 1);
      var head, rest := acl[pos..pos + size], PiecesOf(acl, pos + size, count - 1);
      ConsReads(head, ReadAce(head).value, rest, ReadAces(acl, pos + size, count - 1).value);
      ConsAt(acl, pos, head, rest);
    }
  }

  lemma ConsAt(acl: Bytes, pos: nat, p: Bytes, ps: seq<Bytes>)
    requires At(acl, pos, p) && PiecesAt(acl, pos + |p|, ps)
    ensures PiecesAt(acl, pos, [p] + ps) && Size([p] + ps) == |p| + Size(ps)
  {
    assert ([p] + ps)[1..] == ps;
  }

  lemma ConsReads(p: Bytes, a: Ace, ps: seq<Bytes>, aces: seq<Ace>)
    requires Reads(p, a) && AllRead(ps, aces)
    ensures AllRead([p] + ps, [a] + aces)
  {
  }

  function EntriesOf(ps: seq<Bytes>): seq<Entry>
    requires forall i :: 0 <= i < |ps| ==> |ps[i]| >= 4
  {
    seq(|ps|, i requires 0 <= i < |ps| => EntryOf(ps[i]))
  }

  lemma EntriesInverse(ps: seq<Bytes>, aces: seq<Ace>)
    requires AllRead(ps, aces)
    ensures (forall i :: 0 <= i < |ps| ==> |ps[i]| >= 4) && ValidEntries(EntriesOf(ps)) && Pieces(EntriesOf(ps)) == ps
  {
    forall i | 0 <= i < |ps| ensures |ps[i]| >= 4 && ValidEntry(EntryOf(ps[i])) && EntryBytes(EntryOf(ps[i])) == ps[i] {
      assert Reads(ps[i], aces[i]);
      EntryInverse(ps[i]);
    }
  }

  /** The layout of a descriptor that is accepted. */
  ghost function LayoutOf(raw: Bytes): Layout
    requires Decode(raw).Ok?
  {
    var control, ownerAt, daclAt := Word(raw, 2, 2), Word(raw, 4, 4), Word(raw, 16, 4);
    var sid := SidAt(raw, ownerAt).value;
    if control / 4 % 2 == 0 || daclAt == 0 then Layout(control, sid, ownerAt, daclAt, None)
    else
      Layout(control, sid, ownerAt, daclAt, Some(ListOf(raw[daclAt..])))
  }

  ghost function ListOf(acl: Bytes): List
    requires |acl| >= 8 && ReadDacl(acl).Ok?
  {
    var size, count := Word(acl, 2, 2), Word(acl, 4, 2);
    var ps := PiecesOf(acl[..size], 8, count);
    PiecesInverse(acl[..size], 8, count);
    EntriesInverse(ps, ReadAces(acl[..size], 8, count).value);
    List(size, EntriesOf(ps))
  }

  lemma WordInverse(raw: Bytes, at: nat, width: nat)
    requires at + width <= |raw|
    ensures Word(raw, at, width) < Limit(width) && At(raw, at, ToLittle(Word(raw, at, width), width))
  {
    LittleInverse(raw[at..at + width]);
  }

  lemma ListInverse(raw: Bytes, at: nat)
    requires at + 8 <= |raw| && ReadDacl(raw[at..]).Ok?
    ensures ListAt(raw, at, ListOf(raw[at..]))
  {
    var acl := raw[at..];
    var size, count := Word(acl, 2, 2), Word(acl, 4, 2);
    var ps := PiecesOf(acl[..size], 8, count);
    PiecesInverse(acl[..size], 8, count);
    EntriesInverse(ps, ReadAces(acl[..size], 8, count).value);
    ListFields(raw, at);
    PiecesInside(raw, at, size, 8, ps);
  }

  lemma ListFields(raw: Bytes, at: nat)
    requires at + 8 <= |raw|
    ensures var acl := raw[at..];
            && acl[0] == raw[at] && Word(acl, 2, 2) < Limit(2)
            && At(raw, at + 2, ToLittle(Word(acl, 2, 2), 2)) && At(raw, at + 4, ToLittle(Word(acl, 4, 2), 2))
  {
    var acl := raw[at..];
    assert acl[2..4] == raw[at + 2..at + 4] && acl[4..6] == raw[at + 4..at + 6];
    WordInverse(raw, at + 2, 2);
    WordInverse(raw, at + 4, 2);
  }

  /** What is accepted is laid out, and says what it is decoded to. */
  lemma OnlyLayoutsDecode(raw: Bytes)
    requires Decode(raw).Ok?
    ensures LaidOut(raw, LayoutOf(raw)) && Decode(raw).value == Contents(raw, LayoutOf(raw))
  {
    var l := LayoutOf(raw);
    WordInverse(raw, 2, 2);
    WordInverse(raw, 4, 4);
    WordInverse(raw, 16, 4);
    SidInverse(raw, l.ownerAt);
    if l.list.Some? { ListInverse(raw, l.daclAt); }
    DecodeInvertsLayout(raw, l);
  }

  // -------------------- the compact layout

  lemma {:induction false} FlattenedAt(acl: Bytes, pos: nat, ps: seq<Bytes>)
    requires At(acl, pos, Flatten(ps))
    ensures PiecesAt(acl, pos, ps)
    decreases |ps|
  {
    if ps != [] {
      TwoInPlace(acl, pos, ps[0], Flatten(ps[1..]));
      FlattenedAt(acl, pos + |ps[0]|, ps[1..]);
    }
  }

  lemma {:induction false} FlattenedSize(ps: seq<Bytes>)
    ensures Size(ps) == |Flatten(ps)|
  {
    if ps != [] { FlattenedSize(ps[1..]); }
  }

  lemma TwoInPlace(data: Bytes, at: nat, a: Bytes, b: Bytes)
    requires At(data, at, a + b)
    ensures At(data, at, a) && At(data, at + |a|, b)
  {
    var whole := a + b;
    assert At(whole, 0, a) && At(whole, |a|, b);
    AtPart(data, at, whole, 0, a);
    AtPart(data, at, whole, |a|, b);
  }

  function ListBytes(es: seq<Entry>, revision: Byte): Bytes {
    [revision, 0] + ToLittle(8 + |Flatten(Pieces(es))|, 2) + ToLittle(|es|, 2) + [0, 0] + Flatten(Pieces(es))
  }

  /** Header, owner, list. */
  function Encode(control: nat, owner: Sid, es: seq<Entry>, revision: Byte): Bytes {
    HeaderBytes(control, 20, 28 + 4 * |owner.subs|) + SidBytes(owner) + ListBytes(es, revision)
  }

  function HeaderBytes(control: nat, ownerAt: nat, daclAt: nat): (b: Bytes)
    ensures |b| == 20 && b[0] == 1
    ensures b[2..4] == ToLittle(control, 2) && b[4..8] == ToLittle(ownerAt, 4) && b[16..20] == ToLittle(daclAt, 4)
  {
    var front := [1, 0] + ToLittle(control, 2);
    var middle := ToLittle(ownerAt, 4) + ToLittle(0, 4) + ToLittle(0, 4);
    var b := front + middle + ToLittle(daclAt, 4);
    assert b[..4] == front && b[4..16] == middle;
    assert b[2..4] == b[..4][2..4] && b[4..8] == b[4..16][..4];
    b
  }

  predicate Encodable(control: nat, owner: Sid, es: seq<Entry>, revision: Byte) {
    && ValidSid(owner) && ValidEntries(es) && |es| <= MAX_ACES && 8 + |Flatten(Pieces(es))| < Limit(2)
    && (revision == 2 || revision == 4)
    && control < Limit(2) && control / 0x8000 % 2 == 1 && control / 4 % 2 == 1
    && |Encode(control, owner, es, revision)| <= MAX_DESCRIPTOR
  }

  /** Three parts one after the other. */
  lemma PartsInPlace(a: Bytes, b: Bytes, c: Bytes)
    ensures At(a + b + c, 0, a) && At(a + b + c, |a|, b) && At(a + b + c, |a| + |b|, c)
  {
  }

  lemma ListBytesAt(raw: Bytes, at: nat, es: seq<Entry>, revision: Byte)
    requires At(raw, at, ListBytes(es, revision)) && ValidEntries(es) && |es| <= MAX_ACES
    requires 8 + |Flatten(Pieces(es))| < Limit(2) && (revision == 2 || revision == 4)
    ensures ListAt(raw, at, List(8 + |Flatten(Pieces(es))|, es))
  {
    PiecesListAt(raw, at, Pieces(es), |es|, revision);
  }

  lemma PiecesListAt(raw: Bytes, at: nat, ps: seq<Bytes>, count: nat, revision: Byte)
    requires At(raw, at, [revision, 0] + ToLittle(8 + |Flatten(ps)|, 2) + ToLittle(count, 2) + [0, 0] + Flatten(ps))
    requires 8 + |Flatten(ps)| < Limit(2) && (revision == 2 || revision == 4)
    ensures ListHeadAt(raw, at, 8 + |Flatten(ps)|, count) && Size(ps) == |Flatten(ps)| && PiecesAt(raw, at + 8, ps)
  {
    ListFieldsAt(raw, at, revision, 8 + |Flatten(ps)|, count, Flatten(ps));
    FlattenedAt(raw, at + 8, ps);
    FlattenedSize(ps);
  }

  lemma ListFieldsAt(raw: Bytes, at: nat, revision: Byte, size: nat, count: nat, entries: Bytes)
    requires At(raw, at, [revision, 0] + ToLittle(size, 2) + ToLittle(count, 2) + [0, 0] + entries)
    ensures raw[at] == revision && At(raw, at + 2, ToLittle(size, 2)) && At(raw, at + 4, ToLittle(count, 2))
    ensures At(raw, at + 8, entries)
  {
    var a, b, c, d := [revision, 0], ToLittle(size, 2), ToLittle(count, 2), [0, 0];
    TwoInPlace(raw, at, a + b + c + d, entries);
    TwoInPlace(raw, at, a + b + c, d);
    TwoInPlace(raw, at, a + b, c);
    TwoInPlace(raw, at, a, b);
    assert raw[at] == raw[at..at + 2][0];
  }

  lemma DecodeEncode(control: nat, owner: Sid, es: seq<Entry>, revision: Byte)
    requires Encodable(control, owner, es, revision)
    ensures var raw := Encode(control, owner, es, revision);
            Decode(raw) == Ok(Descriptor(SidText(owner), control, false, EntriesAces(es), raw))
  {
    EncodeIsLaidOut(control, owner, es, revision);
    DecodeInvertsLayout(Encode(control, owner, es, revision), CompactLayout(control, owner, es));
  }

  function CompactLayout(control: nat, owner: Sid, es: seq<Entry>): Layout {
    Layout(control, owner, 20, 28 + 4 * |owner.subs|, Some(List(8 + |Flatten(Pieces(es))|, es)))
  }

  lemma EncodeIsLaidOut(control: nat, owner: Sid, es: seq<Entry>, revision: Byte)
    requires Encodable(control, owner, es, revision)
    ensures LaidOut(Encode(control, owner, es, revision), CompactLayout(control, owner, es))
  {
    var raw, list, daclAt := Encode(control, owner, es, revision), ListBytes(es, revision), 28 + 4 * |owner.subs|;
    EncodedParts(control, owner, daclAt, list);
    ListBytesAt(raw, daclAt, es, revision);
    CompactIsLaidOut(raw, CompactLayout(control, owner, es));
  }

  lemma CompactIsLaidOut(raw: Bytes, l: Layout)
    requires 20 <= |raw| <= MAX_DESCRIPTOR && raw[0] == 1
    requires l.control < Limit(2) && l.control / 0x8000 % 2 == 1 && l.control / 4 % 2 == 1 && ValidSid(l.owner)
    requires l.ownerAt == 20 && l.daclAt == 28 + 4 * |l.owner.subs| <= |raw|
    requires At(raw, 2, ToLittle(l.control, 2)) && At(raw, 4, ToLittle(20, 4)) && At(raw, 16, ToLittle(l.daclAt, 4))
    requires At(raw, 20, SidBytes(l.owner)) && l.list.Some? && ListAt(raw, l.daclAt, l.list.value)
    ensures LaidOut(raw, l)
  {
    Limits();
  }

  lemma EncodedParts(control: nat, owner: Sid, daclAt: nat, list: Bytes)
    requires daclAt == 28 + 4 * |owner.subs|
    ensures var raw := HeaderBytes(control, 20, daclAt) + SidBytes(owner) + list;
            && raw[0] == 1 && At(raw, 2, ToLittle(control, 2)) && At(raw, 4, ToLittle(20, 4)) && At(raw, 16, ToLittle(daclAt, 4))
            && At(raw, 20, SidBytes(owner)) && At(raw, daclAt, list)
  {
    var header := HeaderBytes(control, 20, daclAt);
    PartsInPlace(header, SidBytes(owner), list);
    HeaderAt(header + SidBytes(owner) + list, control, 20, daclAt);
  }

  lemma HeaderAt(raw: Bytes, control: nat, ownerAt: nat, daclAt: nat)
    requires At(raw, 0, HeaderBytes(control, ownerAt, daclAt))
    ensures raw[0] == 1 && At(raw, 2, ToLittle(control, 2)) && At(raw, 4, ToLittle(ownerAt, 4)) && At(raw, 16, ToLittle(daclAt, 4))
  {
    var header := HeaderBytes(control, ownerAt, daclAt);
    AtPart(raw, 0, header, 2, ToLittle(control, 2));
    AtPart(raw, 0, header, 4, ToLittle(ownerAt, 4));
    AtPart(raw, 0, header, 16, ToLittle(daclAt, 4));
    assert raw[0] == raw[0..20][0] == header[0];
  }
}
