/**
 Length-prefixed frames: four big-endian length bytes, then a payload of at most 1 MiB.
 The payload is the JSON encoding of a message; here it is just bytes.
 */
module Frames {
  import opened Wrappers
  import opened Streams

  const MAX_FRAME_SIZE := 0x10_0000

  /** binary.BigEndian.PutUint32. */
  function PutUint32(n: nat): (p: seq<byte>)
    requires n < 0x1_0000_0000
    ensures |p| == 4
  {
    [n / 0x100_0000, n / 0x1_0000 % 256, n / 256 % 256, n % 256]
  }

  /** binary.BigEndian.Uint32. */
  function Uint32(p: seq<byte>): (n: nat)
    requires |p| == 4
    ensures n < 0x1_0000_0000
  {
    p[0] as int * 0x100_0000 + p[1] as int * 0x1_0000 + p[2] as int * 256 + p[3] as int
  }

  lemma Uint32RoundTrip(n: nat)
    requires n < 0x1_0000_0000
    ensures Uint32(PutUint32(n)) == n
  {
    var a := n / 256;
    var b := a / 256;
    assert n / 0x1_0000 == b && n / 0x100_0000 == b / 256;
  }

  lemma PutUint32RoundTrip(p: seq<byte>)
    requires |p| == 4
    ensures PutUint32(Uint32(p)) == p
  {
    var n := Uint32(p);
    assert n / 256 == p[0] as int * 0x1_0000 + p[1] as int * 256 + p[2] as int;
    assert n / 0x1_0000 == p[0] as int * 256 + p[1] as int;
    assert n / 0x100_0000 == p[0];
  }

  type Payload = p: seq<byte> | |p| <= MAX_FRAME_SIZE

  function EncodeFrame(payload: Payload): seq<byte> {
    PutUint32(|payload|) + payload
  }

  /** The first frame of a byte sequence and what follows it. */
  function DecodeFrame(s: seq<byte>): Parse<Payload> {
    if |s| < 4 then Malformed
    else
      var n := Uint32(s[..4]);
      if n > MAX_FRAME_SIZE || n > |s| - 4 then Malformed
      else Parsed(s[4..4 + n], s[4 + n..])
  }

  // ---- The reader and the writer -----------------------------------------------------------

  /**
   ReadFrame: under any chunking, the message in the first frame, with nothing consumed
   beyond it. `unmarshal` stands for the JSON decoder, which refuses what is no message.
   */
  method ReadFrame<T>(conn: Conn, unmarshal: Payload -> Option<T>) returns (r: Option<T>)
    requires conn.Valid()
    modifies conn
    ensures conn.Valid()
    ensures match DecodeFrame(old(conn.Remaining()))
            case Parsed(payload, rest) => r == unmarshal(payload) && conn.Remaining() == rest
            case Malformed => r.None?
  {
    ghost var s := conn.Remaining();
    var prefix := conn.ReadFull(4);
    if prefix.None? {
      return None;
    }
    var n := Uint32(prefix.value);
    if n > MAX_FRAME_SIZE {
      return None;
    }
    assert n <= |s| - 4 ==> s[4..][..n] == s[4..4 + n] && s[4..][n..] == s[4 + n..];
    var payload := conn.ReadFull(n);
    if payload.None? {
      return None;
    }
    r := unmarshal(payload.value);
  }

  /** WriteFrame: an oversized message is refused before a byte is written; success means the whole frame is out. */
  method WriteFrame(w: Writer, data: seq<byte>) returns (ok: bool)
    modifies w
    ensures |data| > MAX_FRAME_SIZE ==> !ok && w.out == old(w.out)
    ensures |data| <= MAX_FRAME_SIZE ==>
              exists n: nat :: n <= |EncodeFrame(data)| && w.out == old(w.out) + EncodeFrame(data)[..n]
    ensures ok ==> |data| <= MAX_FRAME_SIZE && w.out == old(w.out) + EncodeFrame(data)
    ensures w.reliable && |data| <= MAX_FRAME_SIZE ==> ok
  {
    if |data| > MAX_FRAME_SIZE {
      return false;
    }
    ghost var start := w.out;
    var prefix := PutUint32(|data|);
    var n, sent := w.Write(prefix);
    if !sent {
      assert EncodeFrame(data)[..n] == prefix[..n];
      return false;
    }
    assert prefix[..4] == prefix;
    var m, done := w.Write(data);
    ghost var whole := EncodeFrame(data);
    assert whole[..4 + m] == prefix + data[..m];
    assert w.out == start + whole[..4 + m];
    if done {
      assert data[..m] == data;
    }
    ok := done;
  }

  // ---- Frames back to back ---------------------------------------------------------------------

  lemma FrameRoundTrip(payload: Payload, tail: seq<byte>)
    ensures DecodeFrame(EncodeFrame(payload) + tail) == Parsed(payload, tail)
  {
    var s := EncodeFrame(payload) + tail;
    Uint32RoundTrip(|payload|);
    assert s[..4] == PutUint32(|payload|);
    assert s[4..4 + |payload|] == payload;
    assert s[4 + |payload|..] == tail;
  }

  /** Nothing else decodes: what is accepted is exactly a written frame of bounded length. */
  /** Exactly the lengths up to 2^20 are accepted, if that much follows. */
  lemma FrameBound(s: seq<byte>)
    requires |s| >= 4
    ensures DecodeFrame(s).Parsed? <==> Uint32(s[..4]) <= 1048576 && Uint32(s[..4]) <= |s| - 4
  {}

  lemma DecodesOnlyFrames(s: seq<byte>)
    requires DecodeFrame(s).Parsed?
    ensures s == EncodeFrame(DecodeFrame(s).value) + DecodeFrame(s).rest
  {
    PutUint32RoundTrip(s[..4]);
  }

  /** Every proper truncation of a frame is an error. */
  lemma TruncatedFrameFails(payload: Payload, n: nat)
    requires n < |EncodeFrame(payload)|
    ensures DecodeFrame(EncodeFrame(payload)[..n]).Malformed?
  {
    var s := EncodeFrame(payload)[..n];
    if DecodeFrame(s).Parsed? {
      assert s[..4] == PutUint32(|payload|);
      Uint32RoundTrip(|payload|);
      assert false;
    }
  }

  function EncodeAll(payloads: seq<Payload>): seq<byte> {
    if payloads == [] then [] else EncodeFrame(payloads[0]) + EncodeAll(payloads[1..])
  }

  /** Reading `count` frames in a row. */
  function DecodeAll(s: seq<byte>, count: nat): Parse<seq<Payload>> {
    if count == 0 then Parsed([], s)
    else match DecodeFrame(s)
      case Malformed => Malformed
      case Parsed(payload, rest) =>
        match DecodeAll(rest, count - 1)
        case Malformed => Malformed
        case Parsed(payloads, tail) => Parsed([payload] + payloads, tail)
  }

  /** Frames written back to back are read back as written, and raw bytes after them stay unread. */
  lemma {:induction false} AllFramesRoundTrip(payloads: seq<Payload>, tail: seq<byte>)
    ensures DecodeAll(EncodeAll(payloads) + tail, |payloads|) == Parsed(payloads, tail)
  {
    if payloads == [] {
      assert EncodeAll(payloads) + tail == tail;
    } else {
      var rest := EncodeAll(payloads[1..]) + tail;
      assert EncodeAll(payloads) + tail == EncodeFrame(payloads[0]) + rest;
      FrameRoundTrip(payloads[0], rest);
      AllFramesRoundTrip(payloads[1..], tail);
      assert [payloads[0]] + payloads[1..] == payloads;
    }
  }
}
