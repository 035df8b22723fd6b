/**
 The Minecraft handshake as the hostname router sees it: peeking the server address
 off a connection, replaying what was read, and reducing the address to the form under
 which tunnels store their hostname. Hostnames are byte sequences; case folding is
 ASCII only.
 */
module Handshake {
  import opened Wrappers
  import opened Streams
  import Trimming
  import VarInt

  const MAX_PACKET_LEN := 2048
  const MAX_ADDRESS_LEN := 255

  const NUL: byte := 0
  const DOT: byte := 0x2E

  // ---- The packet on a byte sequence -------------------------------------------------

  /** The server address of a handshake packet, and what follows the address. */
  function ParseAddress(s: seq<byte>): Parse<seq<byte>> {
    match VarInt.Decode(s)
    case Malformed => Malformed
    case Parsed(length, rest) => if length <= 0 || length > MAX_PACKET_LEN then Malformed else ParseBody(rest)
  }

  /** From the packet id on. */
  function ParseBody(s: seq<byte>): Parse<seq<byte>> {
    match VarInt.Decode(s)
    case Malformed => Malformed
    case Parsed(packetId, rest) => if packetId != 0 then Malformed else ParseFields(rest)
  }

  /** From the protocol version on, whose value does not matter. */
  function ParseFields(s: seq<byte>): Parse<seq<byte>> {
    match VarInt.Decode(s)
    case Malformed => Malformed
    case Parsed(_, rest) => ParseString(rest)
  }

  /** A length-prefixed string. */
  function ParseString(s: seq<byte>): Parse<seq<byte>> {
    match VarInt.Decode(s)
    case Malformed => Malformed
    case Parsed(n, rest) =>
      if n < 0 || n > MAX_ADDRESS_LEN || n > |rest| then Malformed else Parsed(rest[..n], rest[n..])
  }

  /** The part before the first NUL byte. */
  function BeforeNul(s: seq<byte>): (r: seq<byte>)
    ensures NUL !in r && r <= s
    ensures r == s || (|r| < |s| && s[|r|] == NUL)
  {
    if s == [] || s[0] == NUL then [] else [s[0]] + BeforeNul(s[1..])
  }

  function TrimDot(s: seq<byte>): seq<byte> {
    if s != [] && s[|s| - 1] == DOT then s[..|s| - 1] else s
  }

  function LowerByte(b: byte): byte {
    if 0x41 <= b <= 0x5A then b + 0x20 else b
  }

  function ToLower(s: seq<byte>): (r: seq<byte>)
    ensures |r| == |s| && forall i :: 0 <= i < |s| ==> r[i] == LowerByte(s[i])
  {
    seq(|s|, i requires 0 <= i < |s| => LowerByte(s[i]))
  }

  /** The same byte, or the same ASCII letter in the other case. */
  predicate SameLetter(a: byte, b: byte) {
    || a == b
    || (0x41 <= a <= 0x5A && b == a + 0x20)
    || (0x41 <= b <= 0x5A && a == b + 0x20)
  }

  predicate SameUpToCase(s: seq<byte>, t: seq<byte>) {
    |s| == |t| && forall i :: 0 <= i < |s| ==> SameLetter(s[i], t[i])
  }

  /** Folding leaves no upper-case letter, and gives the same for two texts exactly if they differ in case only. */
  lemma FoldingIsByCase(s: seq<byte>, t: seq<byte>)
    ensures ToLower(s) == ToLower(t) <==> SameUpToCase(s, t)
    ensures SameUpToCase(s, ToLower(s))
    ensures forall i :: 0 <= i < |s| ==> !(0x41 <= ToLower(s)[i] <= 0x5A)
  {
    if ToLower(s) == ToLower(t) {
      forall i | 0 <= i < |s|
        ensures SameLetter(s[i], t[i])
      {
        assert ToLower(s)[i] == ToLower(t)[i];
      }
    }
  }

  /** The routing key of a server address. */
  function Normalise(address: seq<byte>): seq<byte> {
    ToLower(TrimDot(BeforeNul(address)))
  }

  /** The hostname a stream asks for, if it starts with a handshake naming one. */
  function ParseHostname(s: seq<byte>): (r: Option<seq<byte>>)
    ensures r.Some? ==> r.value != []
  {
    match ParseAddress(s)
    case Malformed => None
    case Parsed(address, _) => if Normalise(address) == [] then None else Some(Normalise(address))
  }

  // ---- Peeking ------------------------------------------------------------------------

  method ReadHandshakeAddress(r: BufReader) returns (res: Option<seq<byte>>)
    requires r.Valid()
    modifies r, r.conn
    ensures r.Valid()
    ensures match ParseAddress(old(r.Remaining()))
            case Parsed(address, rest) => res == Some(address) && r.Remaining() == rest
            case Malformed => res.None?
  {
    ghost var whole := r.Remaining();
    var length := VarInt.ReadVarInt(r);
    if length.None? || length.value <= 0 || length.value > MAX_PACKET_LEN {
      return None;
    }
    assert ParseAddress(whole) == ParseBody(r.Remaining());
    var packetId := VarInt.ReadVarInt(r);
    if packetId.None? || packetId.value != 0 {
      return None;
    }
    assert ParseAddress(whole) == ParseFields(r.Remaining());
    var version := VarInt.ReadVarInt(r);
    if version.None? {
      return None;
    }
    assert ParseAddress(whole) == ParseString(r.Remaining());
    var n := VarInt.ReadVarInt(r);
    if n.None? || n.value < 0 || n.value > MAX_ADDRESS_LEN {
      return None;
    }
    res := r.ReadFull(n.value);
  }

  /**
   peekMinecraftHostname: however the network splits the stream into reads, the answer is
   that of the pure parser on the whole stream, and the replay reader then yields the
   stream from its very first byte, read-ahead included.
   */
  method PeekMinecraftHostname(conn: Conn) returns (hostname: Option<seq<byte>>, replay: ReplayReader?)
    requires conn.Valid()
    modifies conn
    ensures conn.Valid()
    ensures hostname == ParseHostname(old(conn.Remaining()))
    ensures hostname.Some? ==>
              && replay != null && fresh(replay) && replay.conn == conn && replay.Valid()
              && replay.Remaining() == old(conn.Remaining())
  {
    replay := null;
    var br := new BufReader(conn);
    var address := ReadHandshakeAddress(br);
    if address.None? {
      return None, null;
    }
    var name := Normalise(address.value);
    if name == [] {
      return None, null;
    }
    replay := new ReplayReader(br.raw, conn);
    hostname := Some(name);
  }

  // ---- More bytes never change an answer -------------------------------------------------

  lemma DecodeStable(s: seq<byte>, t: seq<byte>)
    requires VarInt.Decode(s).Parsed?
    ensures VarInt.Decode(s + t) == Parsed(VarInt.Decode(s).value, VarInt.Decode(s).rest + t)
  {
    var k: nat :| VarInt.EndsAt(s, k);
    assert VarInt.EndsAt(s + t, k);
    assert (s + t)[..k + 1] == s[..k + 1] && (s + t)[k + 1..] == s[k + 1..] + t;
  }

  /**
   Once a prefix of the stream names a hostname, later bytes cannot change it: the peek
   may answer without waiting for the rest of the packet.
   */
  lemma ParseHostnameStable(s: seq<byte>, t: seq<byte>)
    ensures ParseHostname(s).Some? ==> ParseHostname(s + t) == ParseHostname(s)
  {
    if ParseHostname(s).Some? {
      ParseAddressStable(s, t);
    }
  }

  lemma ParseAddressStable(s: seq<byte>, t: seq<byte>)
    requires ParseAddress(s).Parsed?
    ensures ParseAddress(s + t) == Parsed(ParseAddress(s).value, ParseAddress(s).rest + t)
  {
    DecodeStable(s, t);
    ParseBodyStable(VarInt.Decode(s).rest, t);
  }

  lemma ParseBodyStable(s: seq<byte>, t: seq<byte>)
    requires ParseBody(s).Parsed?
    ensures ParseBody(s + t) == Parsed(ParseBody(s).value, ParseBody(s).rest + t)
  {
    DecodeStable(s, t);
    var s1 := VarInt.Decode(s).rest;
    DecodeStable(s1, t);
    ParseStringStable(VarInt.Decode(s1).rest, t);
  }

  lemma ParseStringStable(s: seq<byte>, t: seq<byte>)
    requires ParseString(s).Parsed?
    ensures ParseString(s + t) == Parsed(ParseString(s).value, ParseString(s).rest + t)
  {
    DecodeStable(s, t);
    var n := VarInt.Decode(s).value;
    var rest := VarInt.Decode(s).rest;
    PrefixStable(rest, n, t);
  }

  lemma PrefixStable(s: seq<byte>, n: int, t: seq<byte>)
    ensures 0 <= n <= |s| ==> (s + t)[..n] == s[..n] && (s + t)[n..] == s[n..] + t
  {}

  // ---- Building handshakes -----------------------------------------------------------------

  type uint16 = n: nat | n < 0x1_0000

  /** The packets that are read on: a length of 1 to 2048, packet id 0, an address of at most 255 bytes that is all there. */
  lemma PacketBounds(n: VarInt.int32, s: seq<byte>)
    ensures ParseAddress(VarInt.Encode(n) + s) == if 1 <= n <= 2048 then ParseBody(s) else Malformed
    ensures ParseBody(VarInt.Encode(n) + s) == if n == 0 then ParseFields(s) else Malformed
    ensures ParseFields(VarInt.Encode(n) + s) == ParseString(s)
    ensures ParseString(VarInt.Encode(n) + s) == if 0 <= n <= 255 && n <= |s| then Parsed(s[..n], s[n..]) else Malformed
  {
    VarInt.RoundTrip(n, s);
  }

  /** Everything after the length prefix: packet id 0, version, address, port, next state. */
  function BuildBody(version: VarInt.int32, address: seq<byte>, port: uint16, next: VarInt.int32): seq<byte>
    requires |address| <= MAX_ADDRESS_LEN
  {
    VarInt.Encode(0) + (VarInt.Encode(version) + (VarInt.Encode(|address|) + (address + BuildTrailer(port, next))))
  }

  function BuildTrailer(port: uint16, next: VarInt.int32): seq<byte> {
    [port / 256, port % 256] + VarInt.Encode(next)
  }

  /** The port is in network order. */
  lemma TrailerPort(port: uint16, next: VarInt.int32)
    ensures var t := BuildTrailer(port, next); |t| > 2 && t[0] as int * 256 + t[1] as int == port
  {
    VarInt.RoundTrip(next, []);
    assert VarInt.Encode(next) != [];
  }

  lemma BodyLength(version: VarInt.int32, address: seq<byte>, port: uint16, next: VarInt.int32)
    requires |address| <= MAX_ADDRESS_LEN
    ensures 0 < |BuildBody(version, address, port, next)| <= MAX_PACKET_LEN
  {
    VarInt.RoundTrip(0, []);
    VarInt.RoundTrip(version, []);
    VarInt.RoundTrip(|address|, []);
    VarInt.RoundTrip(next, []);
  }

  function BuildHandshake(version: VarInt.int32, address: seq<byte>, port: uint16, next: VarInt.int32): seq<byte>
    requires |address| <= MAX_ADDRESS_LEN
  {
    BodyLength(version, address, port, next);
    VarInt.Encode(|BuildBody(version, address, port, next)|) + BuildBody(version, address, port, next)
  }

  lemma StringRoundTrip(address: seq<byte>, after: seq<byte>)
    requires |address| <= MAX_ADDRESS_LEN
    ensures ParseString(VarInt.Encode(|address|) + (address + after)) == Parsed(address, after)
  {
    VarInt.RoundTrip(|address|, address + after);
    SplitAt(address, after);
  }

  lemma BodyRoundTrip(version: VarInt.int32, address: seq<byte>, after: seq<byte>)
    requires |address| <= MAX_ADDRESS_LEN
    ensures ParseBody(VarInt.Encode(0) + (VarInt.Encode(version) + (VarInt.Encode(|address|) + (address + after))))
         == Parsed(address, after)
  {
    var s3 := VarInt.Encode(|address|) + (address + after);
    VarInt.RoundTrip(0, VarInt.Encode(version) + s3);
    VarInt.RoundTrip(version, s3);
    StringRoundTrip(address, after);
  }

  lemma BodyThenTail(a: seq<byte>, b: seq<byte>, c: seq<byte>, d: seq<byte>, e: seq<byte>, tail: seq<byte>)
    ensures (a + (b + (c + (d + e)))) + tail == a + (b + (c + (d + (e + tail))))
  {}

  /** Every handshake with an address of at most 255 bytes passes the length checks and yields that address. */
  lemma HandshakeRoundTrip(version: VarInt.int32, address: seq<byte>, port: uint16, next: VarInt.int32, tail: seq<byte>)
    requires |address| <= MAX_ADDRESS_LEN
    ensures ParseAddress(BuildHandshake(version, address, port, next) + tail)
         == Parsed(address, BuildTrailer(port, next) + tail)
  {
    BodyLength(version, address, port, next);
    var body := BuildBody(version, address, port, next);
    BodyThenTail(VarInt.Encode(0), VarInt.Encode(version), VarInt.Encode(|address|), address,
                 BuildTrailer(port, next), tail);
    Regroup(VarInt.Encode(|body|), body, tail);
    VarInt.RoundTrip(|body|, body + tail);
    BodyRoundTrip(version, address, BuildTrailer(port, next) + tail);
  }

  // ---- The two normalisers agree --------------------------------------------------------------

  predicate IsSpace(b: byte) {
    b == 0x20 || 0x09 <= b <= 0x0D
  }

  /** What the settings handler stores for a public hostname: TrimSpace(ToLower(input)). */
  function StoredForm(input: seq<byte>): seq<byte> {
    Trimming.Trim(IsSpace, ToLower(input))
  }

  predicate IsLower(s: seq<byte>) {
    forall i :: 0 <= i < |s| ==> LowerByte(s[i]) == s[i]
  }

  lemma StoredIsLower(input: seq<byte>)
    ensures IsLower(StoredForm(input))
  {
    Trimming.TrimLeftIsSuffix(IsSpace, ToLower(input));
  }

  lemma {:induction false} BeforeNulSplits(s: seq<byte>, t: seq<byte>)
    requires NUL !in s
    ensures t == [] || t[0] == NUL ==> BeforeNul(s + t) == s
  {
    if s == [] {
      assert s + t == t;
    } else {
      assert (s + t)[1..] == s[1..] + t;
      BeforeNulSplits(s[1..], t);
    }
  }

  /**
   Whatever case a player types a stored hostname in, with or without a trailing dot and
   whatever NUL-separated metadata a modded client appends, the router looks up exactly
   the stored form - provided that form holds no NUL and does not itself end in a dot.
   */
  lemma VariantsReachStoredForm(input: seq<byte>, typed: seq<byte>, dot: bool, metadata: Option<seq<byte>>)
    requires StoredForm(input) != [] && NUL !in StoredForm(input)
    requires StoredForm(input)[|StoredForm(input)| - 1] != DOT
    requires SameUpToCase(typed, StoredForm(input))
    ensures Normalise(typed + (if dot then [DOT] else []) + (if metadata.Some? then [NUL] + metadata.value else []))
         == StoredForm(input)
  {
    var name := typed + if dot then [DOT] else [];
    var extra := if metadata.Some? then [NUL] + metadata.value else [];
    var stored := StoredForm(input);
    StoredIsLower(input);
    LowerIsFixed(stored);
    FoldingIsByCase(typed, stored);
    VariantLetters(typed, stored);
    BeforeNulSplits(name, extra);
    assert TrimDot(name) == typed;
  }

  /** Case has nothing to do with NUL bytes and dots. */
  lemma VariantLetters(typed: seq<byte>, stored: seq<byte>)
    requires SameUpToCase(typed, stored) && stored != []
    ensures NUL !in stored ==> NUL !in typed
    ensures stored[|stored| - 1] != DOT ==> typed[|typed| - 1] != DOT
  {
    forall i | 0 <= i < |typed|
      ensures typed[i] == NUL ==> stored[i] == NUL
    {
      assert SameLetter(typed[i], stored[i]);
    }
    assert SameLetter(typed[|typed| - 1], stored[|typed| - 1]);
  }

  lemma LowerIsFixed(s: seq<byte>)
    requires IsLower(s)
    ensures ToLower(s) == s
  {}

  /** Tab, line feed, vertical tab, form feed, carriage return, space. */
  lemma Spaces(b: byte)
    ensures IsSpace(b) <==> b == 9 || b == 10 || b == 11 || b == 12 || b == 13 || b == 32
  {}

  /** The stored form of a hostname entered with white space around it differs from the hostname in case only. */
  lemma StoredFormOf(before: seq<byte>, hostname: seq<byte>, after: seq<byte>)
    requires Trimming.All(IsSpace, before) && Trimming.All(IsSpace, after)
    requires hostname != [] && !IsSpace(hostname[0]) && !IsSpace(hostname[|hostname| - 1])
    ensures StoredForm(before + hostname + after) == ToLower(hostname)
    ensures SameUpToCase(hostname, StoredForm(before + hostname + after))
  {
    FoldingIsByCase(hostname, ToLower(hostname));
    assert ToLower(before + hostname + after) == ToLower(before) + ToLower(hostname) + ToLower(after);
    Trimming.TrimPadding(IsSpace, ToLower(before), ToLower(hostname), ToLower(after));
  }

  /** The end-to-end form: every handshake carrying such a variant parses to the stored hostname. */
  lemma HandshakeReachesStoredForm(input: seq<byte>, typed: seq<byte>, dot: bool, metadata: Option<seq<byte>>,
                                   version: VarInt.int32, port: uint16, next: VarInt.int32, tail: seq<byte>)
    requires StoredForm(input) != [] && NUL !in StoredForm(input)
    requires StoredForm(input)[|StoredForm(input)| - 1] != DOT
    requires SameUpToCase(typed, StoredForm(input))
    requires |typed| + (if dot then 1 else 0) + (if metadata.Some? then 1 + |metadata.value| else 0) <= MAX_ADDRESS_LEN
    ensures var address := typed + (if dot then [DOT] else []) + (if metadata.Some? then [NUL] + metadata.value else []);
            ParseHostname(BuildHandshake(version, address, port, next) + tail) == Some(StoredForm(input))
  {
    var address := typed + (if dot then [DOT] else []) + (if metadata.Some? then [NUL] + metadata.value else []);
    HandshakeRoundTrip(version, address, port, next, tail);
    VariantsReachStoredForm(input, typed, dot, metadata);
  }

  /** Typing a hostname exactly as stored finds it if and only if it has no NUL and no trailing dot. */
  lemma TypedAsStored(input: seq<byte>)
    ensures var h := StoredForm(input);
            Normalise(h) == h <==> NUL !in h && (h != [] ==> h[|h| - 1] != DOT)
  {
    StoredIsLower(input);
    NormaliseFixes(StoredForm(input));
  }

  lemma NormaliseFixes(h: seq<byte>)
    requires IsLower(h)
    ensures Normalise(h) == h <==> NUL !in h && (h != [] ==> h[|h| - 1] != DOT)
  {
    if NUL !in h {
      BeforeNulSplits(h, []);
      assert h + [] == h;
      assert BeforeNul(h) == h;
      if h == [] || h[|h| - 1] != DOT {
        assert ToLower(h) == h;
      }
    } else {
      assert |BeforeNul(h)| < |h|;
    }
  }

  /** Some address of legal length reaches a storable hostname if and only if the hostname has no NUL. */
  lemma ReachableHostnames(input: seq<byte>)
    requires |StoredForm(input)| <= 253
    ensures (exists address: seq<byte> :: |address| <= MAX_ADDRESS_LEN && Normalise(address) == StoredForm(input))
       <==> NUL !in StoredForm(input)
  {
    var h := StoredForm(input);
    StoredIsLower(input);
    if NUL !in h {
      var address := h + [DOT];
      BeforeNulSplits(address, []);
      assert address + [] == address;
      assert TrimDot(address) == h;
      assert Normalise(address) == h;
    }
    forall address: seq<byte> | Normalise(address) == h
      ensures NUL !in h
    {
      var kept := TrimDot(BeforeNul(address));
      forall i | 0 <= i < |kept|
        ensures ToLower(kept)[i] != NUL
      {
        assert kept[i] in BeforeNul(address);
      }
    }
  }
}
