/** The INSTREAM conversation with the virus scanner: frames out, one line back. */
module Framing {
  import opened Common

  function Code(c: char): Byte {
    if c < '\U{0080}' then c as int else 0
  }

  /** The bytes of an ASCII text. */
  function Ascii(text: string): (bytes: Bytes)
    ensures |bytes| == |text|
    ensures forall i :: 0 <= i < |text| ==> bytes[i] == Code(text[i])
  {
    seq(|text|, i requires 0 <= i < |text| => Code(text[i]))
  }

  const COMMAND: Bytes := [0x7A, 0x49, 0x4E, 0x53, 0x54, 0x52, 0x45, 0x41, 0x4D, 0x00]

  /** Four bytes, most significant first. */
  function Pack(n: nat): (bytes: Bytes)
    requires n <= 0xFFFF_FFFF
    ensures |bytes| == 4
  {
    [n / 0x100_0000, n / 0x1_0000 % 0x100, n / 0x100 % 0x100, n % 0x100]
  }

  function Unpack(bytes: Bytes): nat
    requires |bytes| == 4
  {
    0x100_0000 * bytes[0] as int + 0x1_0000 * bytes[1] as int + 0x100 * bytes[2] as int + bytes[3] as int
  }

  lemma PackRoundTrip(n: nat)
    requires n <= 0xFFFF_FFFF
    ensures Unpack(Pack(n)) == n
  {
    var high, low := n / 0x1_0000, n % 0x1_0000;
    assert n / 0x100_0000 == high / 0x100;
    LowHalf(n);
    var bytes := Pack(n);
    assert bytes == [high / 0x100, high % 0x100, low / 0x100, low % 0x100];
    assert high == 0x100 * (high / 0x100) + high % 0x100;
    assert low == 0x100 * (low / 0x100) + low % 0x100;
  }

  /** The first byte in which two lengths differ tells which is greater, as it must in network byte order. */
  lemma PackOrders(n: nat, m: nat)
    requires n < m <= 0xFFFF_FFFF
    ensures exists i :: 0 <= i < 4 && Pack(n)[..i] == Pack(m)[..i] && Pack(n)[i] < Pack(m)[i]
  {
    var x, y := Pack(n), Pack(m);
    PackRoundTrip(n);
    PackRoundTrip(m);
    var i := if x[0] != y[0] then 0 else if x[1] != y[1] then 1 else if x[2] != y[2] then 2 else 3;
    assert x[..i] == y[..i] && x[i] < y[i];
  }

  lemma LowHalf(n: nat)
    ensures n / 0x100 % 0x100 == n % 0x1_0000 / 0x100
    ensures n % 0x100 == n % 0x1_0000 % 0x100
  {
    var high, low := n / 0x1_0000, n % 0x1_0000;
    assert n == 0x1_0000 * high + low;
    assert n / 0x100 == 0x100 * high + low / 0x100;
  }

  predicate FrameOk(frame: Bytes, maxChunk: nat) {
    1 <= |frame| <= maxChunk
  }

  predicate FramesOk(frames: seq<Bytes>, maxChunk: nat) {
    forall f :: f in frames ==> FrameOk(f, maxChunk)
  }

  function Framed(frames: seq<Bytes>): Bytes
    requires FramesOk(frames, 0xFFFF_FFFF)
  {
    if frames == [] then []
    else
      assert FrameOk(frames[0], 0xFFFF_FFFF);
      Pack(|frames[0]|) + frames[0] + Framed(frames[1..])
  }

  /** What the scanner reads: the data frames up to the zero frame, which must be the last thing sent. */
  function Unframed(wire: Bytes): Option<seq<Bytes>>
    decreases |wire|
  {
    if |wire| < 4 then None
    else
      var n := Unpack(wire[..4]);
      if n == 0 then (if |wire| == 4 then Some([]) else None)
      else if |wire| < 4 + n then None
      else
        var rest := Unframed(wire[4 + n..]);
        if rest.None? then None else Some([wire[4..4 + n]] + rest.value)
  }

  lemma {:induction false} FramedAppend(frames: seq<Bytes>, frame: Bytes)
    requires FramesOk(frames, 0xFFFF_FFFF) && FrameOk(frame, 0xFFFF_FFFF)
    ensures FramesOk(frames + [frame], 0xFFFF_FFFF)
    ensures Framed(frames + [frame]) == Framed(frames) + (Pack(|frame|) + frame)
  {
    if frames == [] {
      assert [frame][1..] == [];
      assert frames + [frame] == [frame];
    } else {
      FramedAppend(frames[1..], frame);
      assert (frames + [frame])[1..] == frames[1..] + [frame];
    }
  }

  lemma UnframedOne(frame: Bytes, tail: Bytes)
    requires FrameOk(frame, 0xFFFF_FFFF)
    ensures Unframed(Pack(|frame|) + frame + tail)
         == if Unframed(tail).None? then None else Some([frame] + Unframed(tail).value)
  {
    var wire := Pack(|frame|) + frame + tail;
    PackRoundTrip(|frame|);
    assert wire[..4] == Pack(|frame|);
    assert wire[4..4 + |frame|] == frame;
    assert wire[4 + |frame|..] == tail;
  }

  lemma HeadAndTail(frames: seq<Bytes>)
    requires frames != []
    ensures [frames[0]] + frames[1..] == frames
  {
  }

  /** Decoding a terminated stream gives the frames back; a stream without its zero frame decodes to nothing. */
  lemma {:induction false} FramingRoundTrip(frames: seq<Bytes>)
    requires FramesOk(frames, 0xFFFF_FFFF)
    ensures Unframed(Framed(frames) + Pack(0)) == Some(frames)
    ensures Unframed(Framed(frames)) == None
  {
    if frames == [] {
      assert Framed(frames) + Pack(0) == Pack(0);
      assert Pack(0)[..4] == Pack(0);
    } else {
      var rest := Framed(frames[1..]);
      assert FrameOk(frames[0], 0xFFFF_FFFF);
      FramingRoundTrip(frames[1..]);
      UnframedOne(frames[0], rest);
      UnframedOne(frames[0], rest + Pack(0));
      AppendAssociates(Pack(|frames[0]|) + frames[0], rest, Pack(0));
      HeadAndTail(frames);
    }
  }

  /** The command and these frames are on the wire; together they carry the payload. */
  ghost predicate Carries(sent: Bytes, frames: seq<Bytes>, payload: Bytes, maxChunk: nat) {
    && maxChunk <= 0xFFFF_FFFF
    && FramesOk(frames, maxChunk)
    && Flatten(frames) == payload
    && sent == COMMAND + Framed(frames)
  }

  lemma CarriesMore(sent: Bytes, frames: seq<Bytes>, payload: Bytes, maxChunk: nat, frame: Bytes)
    requires Carries(sent, frames, payload, maxChunk) && FrameOk(frame, maxChunk)
    ensures Carries(sent + (Pack(|frame|) + frame), frames + [frame], payload + frame, maxChunk)
  {
    FramedAppend(frames, frame);
    FlattenSnoc(frames, frame);
  }

  lemma WhatIsSeen(sent: Bytes, frames: seq<Bytes>, payload: Bytes, maxChunk: nat)
    requires Carries(sent, frames, payload, maxChunk)
    ensures Seen(sent) == None
    ensures Seen(sent + Pack(0)) == Some(frames)
  {
    FramingRoundTrip(frames);
    assert sent[|COMMAND|..] == Framed(frames);
    assert (sent + Pack(0))[|COMMAND|..] == Framed(frames) + Pack(0);
  }

  /** The frames that a scanner decodes after the command. */
  function Seen(sent: Bytes): Option<seq<Bytes>> {
    if COMMAND <= sent then Unframed(sent[|COMMAND|..]) else None
  }

  class Connection {
    var sent: Bytes

    constructor ()
      ensures sent == []
    {
      sent := [];
    }

    method Write(payload: Bytes)
      modifies this
      ensures sent == old(sent) + payload
    {
      sent := sent + payload;
    }

    /** Sends one chunk in frames, as far as the limit lets it; payload is what is on the wire then. */
    method StreamChunk(chunk: Bytes, total: nat, maxChunk: nat, maxStream: nat, ghost frames: seq<Bytes>,
                       ghost before: Bytes)
      returns (ok: bool, newTotal: nat, ghost newFrames: seq<Bytes>, ghost payload: Bytes)
      requires maxChunk >= 1 && Carries(sent, frames, before, maxChunk) && total == |before| <= maxStream
      modifies this
      ensures Carries(sent, newFrames, payload, maxChunk) && newTotal == |payload| <= maxStream
      ensures ok <==> |before| + |chunk| <= maxStream
      ensures ok ==> payload == before + chunk
      ensures before <= payload <= before + chunk
    {
      newTotal, newFrames, payload := total, frames, before;
      var offset := 0;
      while offset < |chunk|
        invariant 0 <= offset && payload == before + Upto(chunk, offset)
        invariant Carries(sent, newFrames, payload, maxChunk)
        invariant newTotal == |payload| <= maxStream
      {
        var frame := Upto(chunk, offset + maxChunk)[offset..];
        UptoMore(chunk, offset, maxChunk);
        if newTotal > maxStream - |frame| {
          return false, newTotal, newFrames, payload;
        }
        CarriesMore(sent, newFrames, payload, maxChunk, frame);
        AppendAssociates(before, Upto(chunk, offset), frame);
        Write(Pack(|frame|) + frame);
        newTotal := newTotal + |frame|;
        newFrames, payload := newFrames + [frame], payload + frame;
        offset := offset + maxChunk;
      }
      ok := true;
    }

    /**
     * Streams the chunks. It succeeds exactly when no chunk is empty and all fit the limit. Then the
     * scanner decodes their concatenation; otherwise it has at most the limit, and never sees an end.
     */
    method Stream(chunks: seq<Bytes>, maxChunk: nat, maxStream: nat) returns (ok: bool, ghost frames: seq<Bytes>)
      requires sent == []
      requires 1 <= maxChunk <= 0xFFFF_FFFF && 1 <= maxStream
      modifies this
      ensures ok <==> [] !in chunks && |Flatten(chunks)| <= maxStream
      ensures FramesOk(frames, maxChunk) && |Flatten(frames)| <= maxStream
      ensures ok ==> Seen(sent) == Some(frames) && Flatten(frames) == Flatten(chunks)
      ensures !ok ==> Seen(sent) == None && sent == COMMAND + Framed(frames) && Flatten(frames) <= Flatten(chunks)
    {
      Write(COMMAND);
      var totalBytes := 0;
      frames := [];
      ghost var payload: Bytes := [];
      for i := 0 to |chunks|
        invariant [] !in chunks[..i]
        invariant payload == Flatten(chunks[..i]) && Carries(sent, frames, payload, maxChunk)
        invariant totalBytes == |payload| <= maxStream
      {
        FlattenSplit(chunks, i);
        if chunks[i] == [] {
          WhatIsSeen(sent, frames, payload, maxChunk);
          return false, frames;
        }
        var fits: bool;
        fits, totalBytes, frames, payload := StreamChunk(chunks[i], totalBytes, maxChunk, maxStream, frames, payload);
        if !fits {
          WhatIsSeen(sent, frames, payload, maxChunk);
          return false, frames;
        }
      }
      assert chunks[..|chunks|] == chunks;
      WhatIsSeen(sent, frames, payload, maxChunk);
      Write(Pack(0));
      ok := true;
    }
  }

  lemma UptoMore(chunk: Bytes, offset: nat, maxChunk: nat)
    requires offset < |chunk| && maxChunk >= 1
    ensures var frame := Upto(chunk, offset + maxChunk)[offset..];
      && FrameOk(frame, maxChunk)
      && Upto(chunk, offset) + frame == Upto(chunk, offset + maxChunk)
  {
  }

  function Upto(chunk: Bytes, offset: nat): Bytes {
    if offset < |chunk| then chunk[..offset] else chunk
  }

  /** What was sent so far, the chunk at hand and what is still to come. */
  lemma FlattenSplit(chunks: seq<Bytes>, i: nat)
    requires i < |chunks|
    ensures Flatten(chunks[..i + 1]) == Flatten(chunks[..i]) + chunks[i]
    ensures Flatten(chunks) == Flatten(chunks[..i + 1]) + Flatten(chunks[i + 1..])
  {
    TakeOne(chunks, i);
    FlattenSnoc(chunks[..i], chunks[i]);
    FlattenAppend(chunks[..i + 1], chunks[i + 1..]);
  }

  lemma TakeOne(chunks: seq<Bytes>, i: nat)
    requires i < |chunks|
    ensures chunks[..i + 1] == chunks[..i] + [chunks[i]]
    ensures chunks[..i + 1] + chunks[i + 1..] == chunks
  {
  }

  // ----- the reply -----

  datatype ScanVerdict = Clean | Infected(signature: Bytes) | ScanError

  const OK: Bytes := Ascii("stream: OK")
  const STREAM: Bytes := Ascii("stream: ")
  const FOUND: Bytes := Ascii(" FOUND")

  predicate StartsWith(s: Bytes, prefix: Bytes) {
    prefix <= s
  }

  predicate EndsWith(s: Bytes, suffix: Bytes) {
    |s| >= |suffix| && s[|s| - |suffix|..] == suffix
  }

  predicate IsAscii(s: Bytes) {
    forall b :: b in s ==> b < 128
  }

  /** The slice between two offsets, empty when they cross. */
  function Between(s: Bytes, from: nat, to: int): Bytes {
    if from <= to <= |s| then s[from..to] else []
  }

  function ParseResponse(response: Bytes): ScanVerdict {
    if response == OK then Clean
    else if !StartsWith(response, STREAM) || !EndsWith(response, FOUND) then ScanError
    else
      var signature := Between(response, |STREAM|, |response| - |FOUND|);
      if signature == [] || !IsAscii(signature) then ScanError else Infected(signature)
  }

  function Reply(verdict: ScanVerdict): Bytes
    requires !verdict.ScanError?
  {
    if verdict.Clean? then OK else STREAM + verdict.signature + FOUND
  }

  lemma ReplyIsRead(signature: Bytes)
    requires signature != [] && IsAscii(signature)
    ensures ParseResponse(STREAM + signature + FOUND) == Infected(signature)
  {
    var r := STREAM + signature + FOUND;
    assert |r| == |STREAM| + |signature| + |FOUND|;
    assert r[..|STREAM|] == STREAM;
    assert r[|r| - |FOUND|..] == FOUND;
    assert r[|STREAM|..|r| - |FOUND|] == signature;
    assert r[|r| - 1] == FOUND[|FOUND| - 1] == 'D' as int;
    assert OK[|OK| - 1] == 'K' as int;
  }

  lemma ReadIsReply(response: Bytes)
    requires ParseResponse(response).Infected?
    ensures response == STREAM + ParseResponse(response).signature + FOUND
  {
    var from, to := |STREAM|, |response| - |FOUND|;
    assert response[..from] == STREAM && response[to..] == FOUND;
    assert response == response[..from] + response[from..to] + response[to..];
  }

  /** A verdict is read from its own reply line and from no other; every other line is an error. */
  lemma ReplyMeaning(response: Bytes, verdict: ScanVerdict)
    requires !verdict.ScanError?
    requires verdict.Infected? ==> verdict.signature != [] && IsAscii(verdict.signature)
    ensures ParseResponse(response) == verdict <==> response == Reply(verdict)
  {
    if verdict.Infected? {
      ReplyIsRead(verdict.signature);
      if ParseResponse(response) == verdict {
        ReadIsReply(response);
      }
    }
  }

  lemma VerdictsAreWellFormed(response: Bytes)
    ensures var v := ParseResponse(response);
      v.Infected? ==> v.signature != [] && IsAscii(v.signature)
  {
  }
}
