/**
 * internal/wsldocker/multiplex.go: the decoder of Docker's multiplexed raw stream, proved to
 * invert the framing whatever the chunks in which the bytes arrive.
 */
module Demux {
  import opened Wrappers
  import opened Octets

  const HEADER_SIZE: nat := 8
  const COPY_BUFFER_SIZE: nat := 32 * 1024
  const MAX_SYSTEM_ERROR_SIZE: nat := 4096

  // ---------------------------------------------------------------- the format

  datatype Status =
    | Clean            // end of input between frames
    | CutHeader        // end of input inside a header
    | ReservedBytes    // a reserved header byte is not zero
    | CutPayload       // end of input inside a payload
    | SystemError      // the engine reported an error, or failed to
    | StdinFrame
    | UnknownStream

  datatype Decoded = Decoded(stdout: Bytes, stderr: Bytes, status: Status)

  function Size(header: Bytes): nat
    requires |header| == HEADER_SIZE
  {
    0x100_0000 * (header[4] as nat) + 0x1_0000 * (header[5] as nat) + 0x100 * (header[6] as nat) + (header[7] as nat)
  }

  function Min(a: nat, b: nat): nat { if a < b then a else b }

  /** What a complete input decodes to, frame by frame. */
  function Decode(input: Bytes): Decoded
    decreases |input|
  {
    if input == [] then Decoded([], [], Clean)
    else if |input| < HEADER_SIZE then Decoded([], [], CutHeader)
    else
      var header, rest := input[..HEADER_SIZE], input[HEADER_SIZE..];
      if header[1] != 0 || header[2] != 0 || header[3] != 0 then Decoded([], [], ReservedBytes)
      else if header[0] == 3 then Decoded([], [], SystemError)
      else if header[0] == 0 then Decoded([], [], StdinFrame)
      else if header[0] > 3 then Decoded([], [], UnknownStream)
      else
        var size := Size(header);
        var payload := rest[..Min(size, |rest|)];
        var out, err := if header[0] == 1 then payload else [], if header[0] == 2 then payload else [];
        if |rest| < size then Decoded(out, err, CutPayload)
        else
          var tail := Decode(rest[size..]);
          Decoded(out + tail.stdout, err + tail.stderr, tail.status)
  }

  /** One frame as Docker writes it. */
  datatype Frame = Frame(stderr: bool, payload: Bytes)

  predicate Encodable(frames: seq<Frame>) {
    forall i :: 0 <= i < |frames| ==> |frames[i].payload| < 0x1_0000_0000
  }

  function Header(f: Frame): Bytes
    requires |f.payload| < 0x1_0000_0000
  {
    var n := |f.payload|;
    [if f.stderr then 2 else 1, 0, 0, 0,
     (n / 0x100_0000) as Byte, (n / 0x1_0000 % 0x100) as Byte, (n / 0x100 % 0x100) as Byte, (n % 0x100) as Byte]
  }

  function Encode(frames: seq<Frame>): Bytes
    requires Encodable(frames)
  {
    if frames == [] then [] else Header(frames[0]) + frames[0].payload + Encode(frames[1..])
  }

  function Payloads(frames: seq<Frame>, stderr: bool): Bytes {
    if frames == [] then []
    else (if frames[0].stderr == stderr then frames[0].payload else []) + Payloads(frames[1..], stderr)
  }

  lemma HeaderSize(f: Frame)
    requires |f.payload| < 0x1_0000_0000
    ensures Size(Header(f)) == |f.payload|
  {
    var n := |f.payload|;
    assert n / 0x1_0000 == 0x100 * (n / 0x100_0000) + n / 0x1_0000 % 0x100;
    assert n / 0x100 == 0x100 * (n / 0x1_0000) + n / 0x100 % 0x100;
    assert n == 0x100 * (n / 0x100) + n % 0x100;
  }

  /** Decoding undoes framing. */
  lemma {:induction false} DecodeEncode(frames: seq<Frame>)
    requires Encodable(frames)
    ensures Decode(Encode(frames)) == Decoded(Payloads(frames, false), Payloads(frames, true), Clean)
  {
    if frames != [] {
      var f, input := frames[0], Encode(frames);
      var header, rest := Header(f), f.payload + Encode(frames[1..]);
      assert input == header + rest;
      assert input[..HEADER_SIZE] == header && input[HEADER_SIZE..] == rest;
      HeaderSize(f);
      assert rest[..|f.payload|] == f.payload && rest[|f.payload|..] == Encode(frames[1..]);
      DecodeEncode(frames[1..]);
    }
  }

  /** The frames of a cleanly decoded input. */
  function FramesOf(input: Bytes): (frames: seq<Frame>)
    requires Decode(input).status == Clean
    decreases |input|
  {
    if input == [] then []
    else
      var header, rest := input[..HEADER_SIZE], input[HEADER_SIZE..];
      var size := Size(header);
      [Frame(header[0] == 2, rest[..size])] + FramesOf(rest[size..])
  }

  lemma HeaderUnique(header: Bytes, f: Frame)
    requires |header| == HEADER_SIZE && |f.payload| == Size(header)
    requires header[0] == (if f.stderr then 2 else 1) && header[1] == header[2] == header[3] == 0
    ensures |f.payload| < 0x1_0000_0000 && Header(f) == header
  {
    var n := |f.payload|;
    var a, b, c, d := header[4] as nat, header[5] as nat, header[6] as nat, header[7] as nat;
    assert n == 0x100 * (0x100 * (0x100 * a + b) + c) + d;
    assert n % 0x100 == d && n / 0x100 == 0x100 * (0x100 * a + b) + c;
    assert n / 0x100 % 0x100 == c && n / 0x1_0000 == 0x100 * a + b;
    assert n / 0x1_0000 % 0x100 == b && n / 0x100_0000 == a;
  }

  /** A clean end is reached only by a sequence of complete frames. */
  lemma {:induction false} CleanMeansFrames(input: Bytes)
    requires Decode(input).status == Clean
    ensures Encodable(FramesOf(input)) && Encode(FramesOf(input)) == input
    decreases |input|
  {
    if input != [] {
      var header, rest := input[..HEADER_SIZE], input[HEADER_SIZE..];
      var size := Size(header);
      var f := Frame(header[0] == 2, rest[..size]);
      CleanMeansFrames(rest[size..]);
      HeaderUnique(header, f);
      var frames := FramesOf(input);
      assert frames[1..] == FramesOf(rest[size..]);
      assert input == header + rest[..size] + rest[size..];
    }
  }

  // ---------------------------------------------------------------- readers and writers

  datatype ReadStatus = Data | Eof | ReadError

  /** A reader that delivers its bytes in chunks of its own choosing. */
  class Source {
    const reliable: bool
    var rest: Bytes

    constructor (reliable: bool, content: Bytes)
      ensures this.reliable == reliable && rest == content
    {
      this.reliable, rest := reliable, content;
    }

    method Read(limit: nat) returns (chunk: Bytes, status: ReadStatus)
      requires limit > 0
      modifies this
      ensures old(rest) == chunk + rest
      ensures status.Data? ==> 0 < |chunk| <= limit
      ensures !status.Data? ==> chunk == []
      ensures status.Eof? ==> rest == []
      ensures status.ReadError? ==> !reliable
    {
      chunk := [];
      var fault: bool := *;
      if fault && !reliable { return [], ReadError; }
      if rest == [] { return [], Eof; }
      var n: int := *;
      if n <= 0 || n > limit || n > |rest| { n := 1; }
      chunk, rest := rest[..n], rest[n..];
      status := Data;
    }

    /** io.ReadFull. */
    method ReadFull(n: nat) returns (got: Bytes, status: ReadStatus)
      modifies this
      ensures old(rest) == got + rest && |got| <= n
      ensures status.Data? <==> |got| == n
      ensures status.Eof? ==> rest == []
      ensures status.ReadError? ==> !reliable
    {
      got := [];
      while |got| < n
        invariant old(rest) == got + rest && |got| <= n
        decreases n - |got|
      {
        var chunk: Bytes;
        chunk, status := Read(n - |got|);
        if !status.Data? { return; }
        got := got + chunk;
      }
      status := Data;
    }
  }

  class Sink {
    const reliable: bool
    var written: Bytes

    constructor (reliable: bool)
      ensures this.reliable == reliable && written == []
    {
      this.reliable, written := reliable, [];
    }

    /** A writer may take only part of what it is given. */
    method Write(p: Bytes) returns (n: nat)
      modifies this
      ensures n <= |p| && written == old(written) + p[..n]
      ensures reliable ==> n == |p|
    {
      n := |p|;
      var short: int := *;
      if !reliable && 0 <= short < n { n := short; }
      written := written + p[..n];
    }
  }

  // ---------------------------------------------------------------- the decoder

  /** copyRawStreamPayload: copy up to `size` bytes through a bounded buffer. */
  method CopyPayload(destination: Sink, source: Source, size: nat) returns (written: nat, ok: bool)
    modifies destination, source
    ensures written <= size && written <= |old(source.rest)|
    ensures destination.written == old(destination.written) + old(source.rest)[..written]
    ensures ok ==> written == size && source.rest == old(source.rest)[size..]
    ensures source.reliable && destination.reliable ==> written == Min(size, |old(source.rest)|) && (ok <==> written == size)
  {
    if size == 0 { return 0, true; }
    written := 0;
    while written < size
      invariant written <= size && written <= |old(source.rest)|
      invariant source.rest == old(source.rest)[written..]
      invariant destination.written == old(destination.written) + old(source.rest)[..written]
      decreases size - written
    {
      ghost var before := source.rest;
      var chunk, status := source.Read(Min(COPY_BUFFER_SIZE, size - written));
      if !status.Data? { return written, false; }
      assert chunk == old(source.rest)[written..written + |chunk|];
      var n := destination.Write(chunk);
      assert old(source.rest)[..written + n] == old(source.rest)[..written] + chunk[..n];
      written := written + n;
      if n < |chunk| { return written, false; }
      assert before[|chunk|..] == old(source.rest)[written..];
    }
    ok := true;
  }

  /** `whole` is what has been written so far followed by `rest`. */
  predicate Resumes(whole: Decoded, out: Bytes, err: Bytes, rest: Decoded) {
    whole == Decoded(out + rest.stdout, err + rest.stderr, rest.status)
  }

  lemma ResumesStep(whole: Decoded, out: Bytes, err: Bytes, rest: Decoded, out': Bytes, err': Bytes, last: Decoded)
    requires Resumes(whole, out, err, rest) && Resumes(rest, out', err', last)
    ensures Resumes(whole, out + out', err + err', last)
  {
    assert out + (out' + last.stdout) == out + out' + last.stdout;
    assert err + (err' + last.stderr) == err + err' + last.stderr;
  }

  /** What a decoder may have written of `d`: a prefix of each stream, all of a clean input
      if it reports success, and everything decodable if no reader or writer failed. */
  predicate Faithful(d: Decoded, out: Bytes, err: Bytes, ok: bool, reliable: bool) {
    && out <= d.stdout && err <= d.stderr
    && (ok ==> d == Decoded(out, err, Clean))
    && (reliable ==> d.stdout == out && d.stderr == err && (ok <==> d.status.Clean?))
  }

  lemma FaithfulStep(whole: Decoded, out: Bytes, err: Bytes, rest: Decoded, out': Bytes, err': Bytes, ok: bool, reliable: bool)
    requires Resumes(whole, out, err, rest) && Faithful(rest, out', err', ok, reliable)
    ensures Faithful(whole, out + out', err + err', ok, reliable)
  {
  }

  datatype Progress = Copied | Ended | Failed

  /** One turn of the decoder's loop: a header and its payload. */
  method CopyFrame(stdout: Sink, stderr: Sink, source: Source)
    returns (written: nat, progress: Progress, ghost out: Bytes, ghost err: Bytes)
    requires stdout != stderr
    modifies stdout, stderr, source
    ensures stdout.written == old(stdout.written) + out && stderr.written == old(stderr.written) + err
    ensures written == |out| + |err|
    ensures progress.Copied? ==> |source.rest| < |old(source.rest)|
                                 && Resumes(Decode(old(source.rest)), out, err, Decode(source.rest))
    ensures !progress.Copied? ==> Faithful(Decode(old(source.rest)), out, err, progress.Ended?,
                                           source.reliable && stdout.reliable && stderr.reliable)
  {
    written, out, err := 0, [], [];
    var header, status := source.ReadFull(HEADER_SIZE);
    if status.Eof? && header == [] { progress := Ended; return; }
    progress := Failed;
    if !status.Data? { return; }
    assert old(source.rest)[..HEADER_SIZE] == header && old(source.rest)[HEADER_SIZE..] == source.rest;
    if header[1] != 0 || header[2] != 0 || header[3] != 0 { return; }
    if header[0] != 1 && header[0] != 2 {
      if header[0] == 3 { ReadSystemError(source, Size(header)); }
      return;
    }
    ghost var rest := source.rest;
    var copied;
    if header[0] == 1 {
      written, copied := CopyPayload(stdout, source, Size(header));
      out := rest[..written];
    } else {
      written, copied := CopyPayload(stderr, source, Size(header));
      err := rest[..written];
    }
    if copied { progress := Copied; }
  }

  /** CopyMultiplexedOutput. The count is always the number of payload bytes written. */
  method CopyMultiplexedOutput(stdout: Sink, stderr: Sink, source: Source)
    returns (total: nat, ok: bool, ghost out: Bytes, ghost err: Bytes)
    requires stdout != stderr
    modifies stdout, stderr, source
    ensures stdout.written == old(stdout.written) + out && stderr.written == old(stderr.written) + err
    ensures total == |out| + |err|
    ensures Faithful(Decode(old(source.rest)), out, err, ok, source.reliable && stdout.reliable && stderr.reliable)
  {
    out, err, total := [], [], 0;
    ghost var whole := Decode(source.rest);
    while true
      invariant stdout.written == old(stdout.written) + out && stderr.written == old(stderr.written) + err
      invariant total == |out| + |err|
      invariant Resumes(whole, out, err, Decode(source.rest))
      decreases |source.rest|
    {
      var written, progress;
      written, progress, out, err := CopyNext(stdout, stderr, source, whole, out, err);
      total := total + written;
      if !progress.Copied? { return total, progress.Ended?, out, err; }
    }
  }

  /** One turn, seen against the whole input. */
  method CopyNext(stdout: Sink, stderr: Sink, source: Source, ghost whole: Decoded, ghost out0: Bytes, ghost err0: Bytes)
    returns (written: nat, progress: Progress, ghost out: Bytes, ghost err: Bytes)
    requires stdout != stderr && Resumes(whole, out0, err0, Decode(source.rest))
    modifies stdout, stderr, source
    ensures out0 <= out && err0 <= err && written == |out| + |err| - |out0| - |err0|
    ensures stdout.written == old(stdout.written) + out[|out0|..] && stderr.written == old(stderr.written) + err[|err0|..]
    ensures progress.Copied? ==> |source.rest| < |old(source.rest)| && Resumes(whole, out, err, Decode(source.rest))
    ensures !progress.Copied? ==>
              Faithful(whole, out, err, progress.Ended?, source.reliable && stdout.reliable && stderr.reliable)
  {
    ghost var rest := Decode(source.rest);
    ghost var frameOut, frameErr;
    written, progress, frameOut, frameErr := CopyFrame(stdout, stderr, source);
    out, err := out0 + frameOut, err0 + frameErr;
    if progress.Copied? {
      ResumesStep(whole, out0, err0, rest, frameOut, frameErr, Decode(source.rest));
    } else {
      FaithfulStep(whole, out0, err0, rest, frameOut, frameErr, progress.Ended?,
                   source.reliable && stdout.reliable && stderr.reliable);
    }
  }

  /** readRawStreamSystemError: whatever the frame holds, the result is an error. */
  method ReadSystemError(source: Source, size: nat)
    modifies source
    ensures |source.rest| <= |old(source.rest)|
  {
    if size > MAX_SYSTEM_ERROR_SIZE { return; }
    var _, _ := source.ReadFull(size);
  }
}
