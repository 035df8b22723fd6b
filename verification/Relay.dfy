/**
 One proxied TCP connection, from the public client through the server, the multiplexed
 stream and the client machine to the local service, and back. First one copy loop as the
 steps of a leg, with the loop itself tied to them turn by turn, then the whole connection
 as interleaved steps of everyone involved.
 */
module Relay {
  import opened Wrappers
  import opened Streams
  import opened Frames
  import Handshake

  // ---- One copy loop, observed at every moment --------------------------------------------------

  datatype Ending = Running | AtEof | Failed

  /**
   `arrived` is what the source has sent so far, `pos` how much of it has been read, from
   `base` on; of those bytes `ahead` was read while peeking and not copied yet, `held` sits
   in the copy buffer, `written` was accepted by the destination.
   */
  datatype Leg = Leg(arrived: seq<byte>, base: nat, pos: nat, ahead: seq<byte>, held: seq<byte>,
                     written: seq<byte>, ending: Ending)

  const IdleLeg := Leg([], 0, 0, [], [], [], Running)

  ghost predicate LegInv(l: Leg) {
    && l.base <= l.pos <= |l.arrived|
    && l.written <= l.arrived[l.base..l.pos]
    && (l.ending.Running? ==> l.written + l.held + l.ahead == l.arrived[l.base..l.pos])
    && (l.ending.AtEof? ==> l.written == l.arrived[l.base..l.pos])
  }

  function Min(a: nat, b: nat): nat {
    if a <= b then a else b
  }

  /** The source sent more. */
  function Grow(l: Leg, arrived: seq<byte>): Leg {
    l.(arrived := arrived)
  }

  /** A physical read before the copy starts; the bytes wait in the replay buffer. */
  function PeekMore(l: Leg, n: nat): Leg {
    if !l.ending.Running? || l.pos > |l.arrived| || l.held != [] then l
    else
      var k := Min(n, |l.arrived| - l.pos);
      l.(pos := l.pos + k, ahead := l.ahead + l.arrived[l.pos..l.pos + k])
  }

  /** The copy loop reads up to n bytes, replayed bytes first. */
  function LegRead(l: Leg, n: nat): Leg {
    if !l.ending.Running? || l.held != [] || l.pos > |l.arrived| then l
    else if l.ahead != [] then
      var k := Min(n, |l.ahead|);
      l.(held := l.ahead[..k], ahead := l.ahead[k..])
    else
      var k := Min(n, |l.arrived| - l.pos);
      l.(pos := l.pos + k, held := l.arrived[l.pos..l.pos + k])
  }

  /** The copy loop writes what it holds; a failed write accepts n bytes of it and ends the copy. */
  function LegWrite(l: Leg, n: nat, ok: bool): Leg {
    if !l.ending.Running? then l
    else if ok then l.(written := l.written + l.held, held := [])
    else l.(written := l.written + l.held[..Min(n, |l.held|)], held := [], ending := Failed)
  }

  /** The copy loop sees the end of its source. */
  function LegEof(l: Leg): Leg {
    if l.ending.Running? && l.held == [] && l.ahead == [] then l.(ending := AtEof) else l
  }

  /** The connection breaks under the copy loop. */
  function LegFail(l: Leg): Leg {
    if l.ending.Running? then l.(ending := Failed) else l
  }

  lemma GrowKeeps(l: Leg, arrived: seq<byte>)
    requires LegInv(l) && l.arrived <= arrived
    ensures LegInv(Grow(l, arrived))
  {
    assert arrived[l.base..l.pos] == l.arrived[l.base..l.pos];
    assert l.arrived[l.base..] <= arrived[l.base..];
  }

  lemma PeekKeeps(l: Leg, n: nat)
    requires LegInv(l)
    ensures LegInv(PeekMore(l, n)) && PeekMore(l, n).written == l.written
  {
    var m := PeekMore(l, n);
    if l.ending.Running? && l.held == [] {
      assert l.arrived[l.base..m.pos] == l.arrived[l.base..l.pos] + l.arrived[l.pos..m.pos];
      assert l.written + [] + l.ahead == l.written + l.ahead;
      assert m.written + m.held + m.ahead == (l.written + l.ahead) + l.arrived[l.pos..m.pos];
    }
  }

  lemma ReadKeeps(l: Leg, n: nat)
    requires LegInv(l)
    ensures LegInv(LegRead(l, n)) && LegRead(l, n).written == l.written
  {
    if l.ending.Running? && l.held == [] {
      if l.ahead != [] {
        ReplayRead(l, Min(n, |l.ahead|));
      } else {
        FreshRead(l, l.pos + Min(n, |l.arrived| - l.pos));
      }
    }
  }

  lemma ReplayRead(l: Leg, k: nat)
    requires LegInv(l) && l.ending.Running? && l.held == [] && k <= |l.ahead|
    ensures LegInv(l.(held := l.ahead[..k], ahead := l.ahead[k..]))
  {
    assert l.written + [] + l.ahead == l.written + l.ahead;
    assert l.ahead[..k] + l.ahead[k..] == l.ahead;
    Regroup(l.written, l.ahead[..k], l.ahead[k..]);
  }

  lemma FreshRead(l: Leg, pos: nat)
    requires LegInv(l) && l.ending.Running? && l.held == l.ahead == [] && l.pos <= pos <= |l.arrived|
    ensures LegInv(l.(pos := pos, held := l.arrived[l.pos..pos]))
  {
    assert l.written + [] + [] == l.written;
    assert l.arrived[l.base..pos] == l.arrived[l.base..l.pos] + l.arrived[l.pos..pos];
    assert l.written + l.arrived[l.pos..pos] + [] == l.written + l.arrived[l.pos..pos];
  }

  lemma WriteKeeps(l: Leg, n: nat, ok: bool)
    requires LegInv(l)
    ensures LegInv(LegWrite(l, n, ok)) && l.written <= LegWrite(l, n, ok).written
  {
    if l.ending.Running? {
      var taken := if ok then l.held else l.held[..Min(n, |l.held|)];
      var src := l.arrived[l.base..];
      assert l.written + l.held + l.ahead == src[..l.pos - l.base];
      assert l.written + taken == src[..|l.written| + |taken|];
    }
  }

  lemma EofKeeps(l: Leg)
    requires LegInv(l)
    ensures LegInv(LegEof(l)) && LegEof(l).written == l.written
  {
    if l.held == [] && l.ahead == [] {
      assert l.written + l.held + l.ahead == l.written;
    }
  }

  // ---- io.Copy through a countingReader ------------------------------------------------------

  const COPY_BUFFER := 0x8000

  /** One turn of the loop: a read of some bytes and a write that accepts all of them or fails after some. */
  datatype Turn = Turn(read: nat, written: nat, ok: bool)

  function CopyTurns(l: Leg, turns: seq<Turn>): Leg {
    if turns == [] then l
    else
      var last := turns[|turns| - 1];
      LegWrite(LegRead(CopyTurns(l, turns[..|turns| - 1]), last.read), last.written, last.ok)
  }

  /** A copy about to start: the whole stream is `whole`, of which `peeked` was read already. */
  function StartLeg(peeked: seq<byte>, whole: seq<byte>): Leg {
    Leg(whole, 0, |peeked|, peeked, [], [], Running)
  }

  /** A leg between two turns, and what the reader holds at that moment. */
  ghost predicate AtTurn(l: Leg, prefix: seq<byte>, rest: seq<byte>) {
    && LegInv(l) && l.ending.Running? && l.held == [] && l.base == 0
    && l.ahead == prefix && l.arrived[l.pos..] == rest
  }

  lemma StartsAtTurn(prefix: seq<byte>, rest: seq<byte>)
    ensures AtTurn(StartLeg(prefix, prefix + rest), prefix, rest)
  {
    var l := StartLeg(prefix, prefix + rest);
    SplitAt(prefix, rest);
    assert l.arrived[0..l.pos] == prefix;
    assert l.written + l.held + l.ahead == prefix;
  }

  /** What the reader hands out is what LegRead takes up. */
  lemma TurnReads(l: Leg, prefix: seq<byte>, rest: seq<byte>, piece: seq<byte>, prefixNow: seq<byte>, restNow: seq<byte>)
    requires AtTurn(l, prefix, rest) && piece != []
    requires if prefix != [] then piece + prefixNow == prefix && restNow == rest else prefixNow == [] && piece + restNow == rest
    ensures var m := LegRead(l, |piece|);
            && m.held == piece && m.ahead == prefixNow && m.arrived[m.pos..] == restNow && m.written == l.written
            && LegInv(m) && m.ending.Running? && m.base == 0 && m.arrived == l.arrived
  {
    ReadKeeps(l, |piece|);
    if prefix != [] {
      SplitAt(piece, prefixNow);
    } else {
      SplitAt(piece, restNow);
      assert |rest| == |l.arrived| - l.pos;
      assert l.arrived[l.pos..][..|piece|] == l.arrived[l.pos..l.pos + |piece|];
      assert l.arrived[l.pos..][|piece|..] == l.arrived[l.pos + |piece|..];
    }
  }

  lemma TurnsSnoc(l: Leg, turns: seq<Turn>, t: Turn)
    ensures CopyTurns(l, turns + [t]) == LegWrite(LegRead(CopyTurns(l, turns), t.read), t.written, t.ok)
  {
    assert (turns + [t])[..|turns|] == turns;
  }

  /** One turn: the state after it is that of a LegRead and a LegWrite. */
  lemma TurnDone(l: Leg, piece: seq<byte>, n: nat, ok: bool, m: Leg)
    requires LegInv(l) && l.ending.Running? && l.held == piece && n <= |piece| && (ok ==> n == |piece|)
    requires m == LegWrite(l, n, ok)
    ensures LegInv(m) && m.written == l.written + piece[..n] && m.held == [] && m.ahead == l.ahead && m.pos == l.pos
    ensures m.ending == if ok then Running else Failed
  {
    WriteKeeps(l, n, ok);
    if ok {
      assert piece[..n] == piece;
    }
  }

  /** The loop between two turns: the leg says what was written, what is left, and how much was counted. */
  ghost predicate Copying(first: Leg, turns: seq<Turn>, prefix: seq<byte>, rest: seq<byte>, written: seq<byte>, counted: nat) {
    var l := CopyTurns(first, turns);
    AtTurn(l, prefix, rest) && l.arrived == first.arrived && written == l.written && counted == |l.written|
  }

  /** The loop after a failed write: the bytes of the last read were counted, and only some of them written. */
  ghost predicate CopyFailed(first: Leg, turns: seq<Turn>, prefix: seq<byte>, rest: seq<byte>, written: seq<byte>, counted: nat) {
    var l := CopyTurns(first, turns);
    && l.ending.Failed? && l.pos <= |l.arrived| && l.arrived == first.arrived
    && prefix == l.ahead && rest == l.arrived[l.pos..] && written == l.written
    && |written| <= counted <= |first.arrived|
    && written == first.arrived[..|written|] && prefix + rest == first.arrived[counted..]
  }

  lemma TurnKeeps(first: Leg, turns: seq<Turn>, prefix: seq<byte>, rest: seq<byte>, written: seq<byte>, counted: nat,
                  piece: seq<byte>, prefixNow: seq<byte>, restNow: seq<byte>, n: nat, ok: bool)
    requires Copying(first, turns, prefix, rest, written, counted) && piece != []
    requires if prefix != [] then piece + prefixNow == prefix && restNow == rest else prefixNow == [] && piece + restNow == rest
    requires n <= |piece| && (ok ==> n == |piece|)
    ensures var now := turns + [Turn(|piece|, n, ok)];
            if ok then Copying(first, now, prefixNow, restNow, written + piece[..n], counted + |piece|)
            else CopyFailed(first, now, prefixNow, restNow, written + piece[..n], counted + |piece|)
  {
    var l := CopyTurns(first, turns);
    var m := LegRead(l, |piece|);
    TurnReads(l, prefix, rest, piece, prefixNow, restNow);
    TurnDone(m, piece, n, ok, LegWrite(m, n, ok));
    TurnsSnoc(first, turns, Turn(|piece|, n, ok));
    if !ok {
      ReadFrom(prefix, rest, piece, prefixNow, restNow);
      CopyFails(l, prefix, rest, piece, n, LegWrite(m, n, ok));
    }
  }

  lemma ReadFrom(prefix: seq<byte>, rest: seq<byte>, piece: seq<byte>, prefixNow: seq<byte>, restNow: seq<byte>)
    requires if prefix != [] then piece + prefixNow == prefix && restNow == rest else prefixNow == [] && piece + restNow == rest
    ensures piece <= prefix + rest && prefixNow + restNow == (prefix + rest)[|piece|..]
  {
    assert prefix + rest == piece + (prefixNow + restNow);
  }

  /** One turn of the loop. */
  method CopyTurn(src: ReplayReader, dst: Writer, counted: nat, ghost first: Leg, ghost turns: seq<Turn>, ghost written: seq<byte>)
    returns (now: nat, ending: Ending, ghost after: seq<Turn>, ghost more: seq<byte>)
    requires src.Valid() && Copying(first, turns, src.prefix, src.conn.Remaining(), written, counted)
    modifies src, src.conn, dst
    ensures src.Valid() && dst.out == old(dst.out) + more
    ensures Looping(first, after, src.prefix, src.conn.Remaining(), written + more, now, ending)
    ensures ending.Running? ==> |src.Remaining()| < |old(src.Remaining())|
    ensures ending.Failed? ==> !dst.reliable
  {
    ghost var prefix, rest := src.prefix, src.conn.Remaining();
    var piece := src.Read(COPY_BUFFER);
    if piece == [] {
      assert src.prefix == prefix == [] && src.conn.Remaining() == rest == [];
      assert written + [] == written;
      return counted, AtEof, turns, [];
    }
    now := counted + |piece|;
    var n, sent := dst.Write(piece);
    more, after := piece[..n], turns + [Turn(|piece|, n, sent)];
    TurnKeeps(first, turns, prefix, rest, written, counted, piece, src.prefix, src.conn.Remaining(), n, sent);
    ending := if sent then Running else Failed;
  }

  /**
   One direction of pipe(): its turns are those of a leg, so what is written is a prefix of
   what the reader held; it ends at the end of the stream with everything written, or at a
   failed write; and the counter grows by the bytes read.
   */
  method Copy(src: ReplayReader, dst: Writer, counter: nat) returns (counted: nat, ok: bool, ghost turns: seq<Turn>)
    requires src.Valid()
    modifies src, src.conn, dst
    ensures src.Valid()
    ensures counter <= counted <= counter + |old(src.Remaining())|
    ensures src.Remaining() == old(src.Remaining())[counted - counter..]
    ensures exists n: nat :: n <= counted - counter && dst.out == old(dst.out) + old(src.Remaining())[..n]
    ensures ok ==> dst.out == old(dst.out) + old(src.Remaining()) && src.Remaining() == []
    ensures dst.reliable ==> ok
    ensures var l := CopyTurns(StartLeg(old(src.prefix), old(src.Remaining())), turns);
            && l.pos <= |l.arrived| && src.prefix == l.ahead && src.conn.Remaining() == l.arrived[l.pos..]
            && dst.out == old(dst.out) + l.written
            && (if ok then LegEof(l).ending.AtEof? && l.pos == |l.arrived| else l.ending.Failed?)
  {
    ghost var out, first := dst.out, StartLeg(src.prefix, src.Remaining());
    ghost var written;
    counted, ok, turns, written := CopyLoop(src, dst, first);
    assert dst.out == out + first.arrived[..|written|];
    counted := counter + counted;
  }

  /** The loop with its counter starting at zero. */
  method CopyLoop(src: ReplayReader, dst: Writer, ghost first: Leg)
    returns (counted: nat, ok: bool, ghost turns: seq<Turn>, ghost written: seq<byte>)
    requires src.Valid() && first == StartLeg(src.prefix, src.Remaining())
    modifies src, src.conn, dst
    ensures src.Valid() && dst.out == old(dst.out) + written && (dst.reliable ==> ok)
    ensures Copied(first, turns, src.prefix, src.conn.Remaining(), written, counted, ok)
  {
    written, turns, counted := [], [], 0;
    StartsAtTurn(src.prefix, src.conn.Remaining());
    var ending := Running;
    while ending.Running?
      invariant src.Valid() && dst.out == old(dst.out) + written && (ending.Failed? ==> !dst.reliable)
      invariant Looping(first, turns, src.prefix, src.conn.Remaining(), written, counted, ending)
      decreases ending.Running?, |src.Remaining()|
    {
      ghost var more;
      counted, ending, turns, more := CopyTurn(src, dst, counted, first, turns, written);
      Regroup(old(dst.out), written, more);
      written := written + more;
    }
    ok := ending.AtEof?;
    LoopEnds(first, turns, src.prefix, src.conn.Remaining(), written, counted, ending);
  }

  ghost predicate Looping(first: Leg, turns: seq<Turn>, prefix: seq<byte>, rest: seq<byte>, written: seq<byte>,
                          counted: nat, ending: Ending) {
    match ending
    case Running => Copying(first, turns, prefix, rest, written, counted)
    case AtEof => Copying(first, turns, prefix, rest, written, counted) && prefix + rest == []
    case Failed => CopyFailed(first, turns, prefix, rest, written, counted)
  }

  lemma LoopEnds(first: Leg, turns: seq<Turn>, prefix: seq<byte>, rest: seq<byte>, written: seq<byte>, counted: nat, ending: Ending)
    requires Looping(first, turns, prefix, rest, written, counted, ending) && !ending.Running?
    ensures Copied(first, turns, prefix, rest, written, counted, ending.AtEof?)
  {
    if ending.AtEof? {
      CopyEnds(CopyTurns(first, turns), prefix, rest);
    }
  }

  /** How a copy can end. */
  ghost predicate Copied(first: Leg, turns: seq<Turn>, prefix: seq<byte>, rest: seq<byte>, written: seq<byte>, counted: nat, ok: bool) {
    var l := CopyTurns(first, turns);
    && l.pos <= |l.arrived| && prefix == l.ahead && rest == l.arrived[l.pos..] && written == l.written
    && |written| <= counted <= |first.arrived|
    && written == first.arrived[..|written|] && prefix + rest == first.arrived[counted..]
    && (if ok then LegEof(l).ending.AtEof? && l.pos == |l.arrived| && written == first.arrived && prefix + rest == []
        else l.ending.Failed?)
  }

  /** At the end of the stream everything was read and written. */
  lemma CopyEnds(l: Leg, prefix: seq<byte>, rest: seq<byte>)
    requires AtTurn(l, prefix, rest) && prefix + rest == []
    ensures LegEof(l).ending.AtEof? && l.pos == |l.arrived| && l.written == l.arrived
  {
    assert l.written + l.held + l.ahead == l.written;
    assert l.arrived[0..|l.arrived|] == l.arrived;
  }

  /** After a failed write the reader is past the piece, the writer within it. */
  lemma CopyFails(l: Leg, prefix: seq<byte>, rest: seq<byte>, piece: seq<byte>, n: nat, m: Leg)
    requires AtTurn(l, prefix, rest) && piece <= prefix + rest && n <= |piece|
    requires m.written == l.written + piece[..n] && m.arrived == l.arrived
    ensures m.written == l.arrived[..|l.written| + n]
    ensures (prefix + rest)[|piece|..] == l.arrived[|l.written| + |piece|..]
    ensures |l.written| + |piece| <= |l.arrived|
  {
    Whole(l, prefix, rest);
    assert l.written + piece[..n] == l.arrived[..|l.written| + n];
  }

  lemma Whole(l: Leg, prefix: seq<byte>, rest: seq<byte>)
    requires AtTurn(l, prefix, rest)
    ensures l.written + (prefix + rest) == l.arrived
  {
    assert l.written + l.held + l.ahead == l.written + prefix;
    assert l.arrived[0..l.pos] + l.arrived[l.pos..] == l.arrived;
    Regroup(l.written, prefix, rest);
  }

  // ---- The whole connection ----------------------------------------------------------------------

  /**
   What is fixed for a connection: whether it came in through the hostname router, the
   stream header the server sends (its JSON bytes), whether the tunnel asks for a PROXY
   line, and how the client makes that line from the header it received.
   */
  datatype Setup = Setup(viaRouter: bool, header: Payload, proxyProtocol: bool, proxyLine: Payload -> seq<byte>)

  datatype ServerPhase = Peeking | SendingHeader | ServerCopying | ServerGone
  datatype ClientPhase = AwaitingHeader | SendingPreamble | ClientCopying | ClientGone

  datatype Link = Link(
    publicClosed: bool,          // the public client will send nothing more
    server: ServerPhase,
    headerSent: nat,             // bytes of the header frame written to the stream
    inbound: Leg,                // public client -> stream, behind the header frame
    sessionLost: bool,           // the multiplexed session died; bytes in flight may vanish
    client: ClientPhase,
    learned: Option<Payload>,    // the header as the client decoded it
    preambleSent: nat,           // bytes of the PROXY line written to the local service
    delivery: Leg,               // stream, behind the header frame -> local service
    localClosed: bool,           // the local service will send nothing more
    reply: Leg,                  // local service -> stream
    returning: Leg)              // stream -> public client

  const Start := Link(false, Peeking, 0, IdleLeg, false, AwaitingHeader, None, 0, IdleLeg, false, IdleLeg, IdleLeg)

  function HeaderFrame(c: Setup): seq<byte> {
    EncodeFrame(c.header)
  }

  /** Everything written to the stream towards the client machine. */
  function Wire(c: Setup, s: Link): seq<byte> {
    HeaderFrame(c)[..Min(s.headerSent, |HeaderFrame(c)|)] + s.inbound.written
  }

  /** The bytes the client writes to the local service before relaying. */
  function PreambleFor(c: Setup, header: Payload): seq<byte> {
    if c.proxyProtocol then c.proxyLine(header) else []
  }

  /** Everything written to the local service. */
  function Local(c: Setup, s: Link): seq<byte> {
    (if s.learned.None? then []
     else PreambleFor(c, s.learned.value)[..Min(s.preambleSent, |PreambleFor(c, s.learned.value)|)])
    + s.delivery.written
  }

  datatype Event =
    | PublicSends(bytes: seq<byte>)
    | PublicCloses
    | PeekRead(n: nat)                   // one physical read of the hostname peek
    | PeekDone                           // the hostname is known, or the listener needs none
    | SendHeader(n: nat)                 // n more bytes of the header frame go out
    | ServerRead(n: nat)
    | ServerWrite(n: nat, ok: bool)
    | ServerEof
    | InboundFails                       // one copy loop ends on an error, the other goes on
    | ServerBreaks
    | SessionLost
    | ReceiveHeader                      // the client has a whole frame to read
    | SendPreamble(n: nat)
    | ClientRead(n: nat)
    | ClientWrite(n: nat, ok: bool)
    | ClientEof
    | DeliveryFails
    | ClientBreaks
    | LocalSends(bytes: seq<byte>)
    | ReplyRead(n: nat)
    | ReplyWrite(n: nat, ok: bool)
    | LocalCloses
    | ReplyEof
    | ReplyFails
    | ReturnRead(n: nat)
    | ReturnWrite(n: nat, ok: bool)
    | ReturnEof
    | ReturnFails

  /** The stream gained bytes: the client's end of it sees them. */
  function Feed(c: Setup, s: Link): Link {
    s.(delivery := Grow(s.delivery, Wire(c, s)))
  }

  // A copy loop that has ended closes the connection it wrote to. The other loop at that place
  // read from it: reads on a closed connection fail, and on a closed stream end of file may be
  // reported at once.

  function ServerStep(c: Setup, s: Link, e: Event): Link {
    match e
    case PublicSends(bytes) =>
      if s.publicClosed then s else s.(inbound := Grow(s.inbound, s.inbound.arrived + bytes))
    case PublicCloses => s.(publicClosed := true)
    case PeekRead(n) =>
      if s.server.Peeking? && c.viaRouter then s.(inbound := PeekMore(s.inbound, n)) else s
    case PeekDone =>
      if s.server.Peeking? && (c.viaRouter ==> Handshake.ParseHostname(s.inbound.ahead).Some?)
      then s.(server := SendingHeader) else s
    case SendHeader(n) =>
      if !s.server.SendingHeader? then s
      else
        var sent := Min(s.headerSent + n, |HeaderFrame(c)|);
        Feed(c, s.(headerSent := sent, server := if sent == |HeaderFrame(c)| then ServerCopying else SendingHeader))
    case ServerRead(n) => if s.server.ServerCopying? && s.returning.ending.Running? then s.(inbound := LegRead(s.inbound, n)) else s
    case ServerWrite(n, ok) =>
      if s.server.ServerCopying? then Feed(c, s.(inbound := LegWrite(s.inbound, n, ok))) else s
    case ServerEof =>
      if s.server.ServerCopying? && s.returning.ending.Running? && s.publicClosed && s.inbound.pos == |s.inbound.arrived|
      then s.(inbound := LegEof(s.inbound)) else s
    case InboundFails => if !s.server.ServerCopying? then s else s.(inbound := LegFail(s.inbound))
    case ServerBreaks => s.(server := ServerGone, inbound := LegFail(s.inbound), returning := LegFail(s.returning))
    case SessionLost => s.(sessionLost := true)
    case ReturnRead(n) => if s.server.ServerCopying? then s.(returning := LegRead(s.returning, n)) else s
    case ReturnWrite(n, ok) => if s.server.ServerCopying? then s.(returning := LegWrite(s.returning, n, ok)) else s
    case ReturnEof =>
      if s.server.ServerCopying?
         && (s.sessionLost || !s.inbound.ending.Running?
             || (!s.reply.ending.Running? && s.returning.pos == |s.returning.arrived|))
      then s.(returning := LegEof(s.returning)) else s
    case ReturnFails => if !s.server.ServerCopying? then s else s.(returning := LegFail(s.returning))
    case _ => s
  }

  function ClientStep(c: Setup, s: Link, e: Event): Link {
    match e
    case ReceiveHeader =>
      (match DecodeFrame(Wire(c, s))
       case Malformed => s
       case Parsed(header, rest) =>
         if !s.client.AwaitingHeader? then s
         else
           var read := |Wire(c, s)| - |rest|;
           s.(client := if PreambleFor(c, header) == [] then ClientCopying else SendingPreamble,
              learned := Some(header),
              delivery := s.delivery.(base := read, pos := read)))
    case SendPreamble(n) =>
      if !s.client.SendingPreamble? || s.learned.None? then s
      else
        var sent := Min(s.preambleSent + n, |PreambleFor(c, s.learned.value)|);
        s.(preambleSent := sent,
           client := if sent == |PreambleFor(c, s.learned.value)| then ClientCopying else SendingPreamble)
    case ClientRead(n) => if s.client.ClientCopying? then s.(delivery := LegRead(s.delivery, n)) else s
    case ClientWrite(n, ok) => if s.client.ClientCopying? then s.(delivery := LegWrite(s.delivery, n, ok)) else s
    case ClientEof =>
      if s.client.ClientCopying?
         && (s.sessionLost || !s.reply.ending.Running?
             || (!s.inbound.ending.Running? && s.delivery.pos == |s.delivery.arrived|))
      then s.(delivery := LegEof(s.delivery)) else s
    case DeliveryFails => if !s.client.ClientCopying? then s else s.(delivery := LegFail(s.delivery))
    case ClientBreaks => s.(client := ClientGone, delivery := LegFail(s.delivery), reply := LegFail(s.reply))
    case LocalSends(bytes) => if s.localClosed then s else s.(reply := Grow(s.reply, s.reply.arrived + bytes))
    case LocalCloses => s.(localClosed := true)
    case ReplyEof =>
      if s.client.ClientCopying? && s.delivery.ending.Running? && s.localClosed && s.reply.pos == |s.reply.arrived|
      then s.(reply := LegEof(s.reply)) else s
    case ReplyFails => if !s.client.ClientCopying? then s else s.(reply := LegFail(s.reply))
    case ReplyRead(n) => if s.client.ClientCopying? && s.delivery.ending.Running? then s.(reply := LegRead(s.reply, n)) else s
    case ReplyWrite(n, ok) =>
      if s.client.ClientCopying? then
        var reply := LegWrite(s.reply, n, ok);
        s.(reply := reply, returning := Grow(s.returning, reply.written))
      else s
    case _ => s
  }

  function Step(c: Setup, s: Link, e: Event): Link {
    ClientStep(c, ServerStep(c, s, e), e)
  }

  function Run(c: Setup, events: seq<Event>): Link {
    if events == [] then Start else Step(c, Run(c, events[..|events| - 1]), events[|events| - 1])
  }

  // ---- What every step keeps -----------------------------------------------------------------------

  /** The copies themselves, and how they are chained. */
  ghost predicate Chained(c: Setup, s: Link) {
    && LegInv(s.inbound) && LegInv(s.delivery) && LegInv(s.reply) && LegInv(s.returning)
    && s.inbound.base == 0 && s.reply.base == 0 && s.returning.base == 0
    && s.delivery.arrived == Wire(c, s)
    && s.returning.arrived == s.reply.written
  }

  /** The server copies only behind a complete header frame. */
  ghost predicate HeaderFirst(c: Setup, s: Link) {
    && s.headerSent <= |HeaderFrame(c)|
    && (s.headerSent < |HeaderFrame(c)| ==> s.inbound.written == [] && !s.server.ServerCopying?)
    && (s.inbound.ending.AtEof? ==> s.publicClosed && s.inbound.pos == |s.inbound.arrived|)
  }

  /** The client delivers only what is behind the header, and only behind a complete PROXY line. */
  ghost predicate PreambleFirst(c: Setup, s: Link) {
    && (s.client.AwaitingHeader? ==> s.learned.None? && s.delivery.ending.Running?)
    && (s.learned.None? ==>
          && !s.client.ClientCopying?
          && s.delivery.written == s.delivery.held == s.delivery.ahead == []
          && s.delivery.base == s.delivery.pos == s.preambleSent == 0
          && !s.delivery.ending.AtEof?)
    && (s.learned.Some? ==>
          && s.learned.value == c.header
          && s.headerSent == |HeaderFrame(c)| == s.delivery.base
          && s.preambleSent <= |PreambleFor(c, c.header)|
          && (s.preambleSent < |PreambleFor(c, c.header)| ==>
                !s.client.ClientCopying? && s.delivery.written == [] && !s.delivery.ending.AtEof?))
  }

  ghost predicate Inv(c: Setup, s: Link) {
    Chained(c, s) && HeaderFirst(c, s) && PreambleFirst(c, s)
  }

  lemma WireBehindHeader(c: Setup, s: Link)
    requires s.headerSent == |HeaderFrame(c)|
    ensures Wire(c, s) == HeaderFrame(c) + s.inbound.written
    ensures Wire(c, s)[|HeaderFrame(c)|..] == s.inbound.written
  {
    assert HeaderFrame(c)[..|HeaderFrame(c)|] == HeaderFrame(c);
  }

  /** The header the client decodes is the one the server wrote, and the rest is the copied bytes. */
  lemma HeaderArrives(c: Setup, s: Link)
    requires Inv(c, s) && DecodeFrame(Wire(c, s)).Parsed?
    ensures s.headerSent == |HeaderFrame(c)|
    ensures DecodeFrame(Wire(c, s)) == Parsed(c.header, s.inbound.written)
  {
    if s.headerSent < |HeaderFrame(c)| {
      assert Wire(c, s) == HeaderFrame(c)[..s.headerSent];
      TruncatedFrameFails(c.header, s.headerSent);
    } else {
      WireBehindHeader(c, s);
      FrameRoundTrip(c.header, s.inbound.written);
    }
  }

  /** The client's end of the stream follows when the server's end grows. */
  lemma FeedKeeps(c: Setup, s: Link, t: Link)
    requires Inv(c, s)
    requires t.headerSent == s.headerSent || (t.headerSent == Min(t.headerSent, |HeaderFrame(c)|) > s.headerSent)
    requires s.inbound.written <= t.inbound.written
    requires t.inbound.written != s.inbound.written ==> s.headerSent == |HeaderFrame(c)|
    ensures LegInv(Grow(s.delivery, Wire(c, t)))
    ensures t.inbound.written == s.inbound.written && t.headerSent == s.headerSent ==> Wire(c, t) == Wire(c, s)
  {
    assert HeaderFrame(c)[..s.headerSent] <= HeaderFrame(c)[..t.headerSent];
    assert Wire(c, s) <= Wire(c, t);
    GrowKeeps(s.delivery, Wire(c, t));
  }

  lemma SendHeaderKeeps(c: Setup, s: Link, n: nat)
    requires Inv(c, s)
    ensures Inv(c, ServerStep(c, s, SendHeader(n)))
  {
    if s.server.SendingHeader? {
      var sent := Min(s.headerSent + n, |HeaderFrame(c)|);
      FeedKeeps(c, s, s.(headerSent := sent));
    }
  }

  lemma ServerWriteKeeps(c: Setup, s: Link, n: nat, ok: bool)
    requires Inv(c, s)
    ensures Inv(c, ServerStep(c, s, ServerWrite(n, ok)))
  {
    if s.server.ServerCopying? {
      WriteKeeps(s.inbound, n, ok);
      FeedKeeps(c, s, s.(inbound := LegWrite(s.inbound, n, ok)));
    }
  }

  /** Steps that write nothing to the stream. */
  lemma InboundKeeps(c: Setup, s: Link, inbound: Leg)
    requires Inv(c, s)
    requires LegInv(inbound) && inbound.base == 0 && inbound.written == s.inbound.written
    requires inbound.ending == s.inbound.ending || !inbound.ending.Running?
    requires inbound.ending.AtEof? ==> s.publicClosed && inbound.pos == |inbound.arrived|
    ensures Inv(c, s.(inbound := inbound))
  {
    assert Wire(c, s.(inbound := inbound)) == Wire(c, s);
  }

  lemma OpeningKeeps(c: Setup, s: Link, e: Event)
    requires Inv(c, s)
    requires e.PublicSends? || e.PublicCloses? || e.PeekRead? || e.PeekDone? || e.SessionLost?
    ensures Inv(c, ServerStep(c, s, e))
  {
    match e
    case PublicSends(bytes) =>
      if !s.publicClosed {
        GrowKeeps(s.inbound, s.inbound.arrived + bytes);
        InboundKeeps(c, s, Grow(s.inbound, s.inbound.arrived + bytes));
      }
    case PeekRead(n) =>
      if s.server.Peeking? && c.viaRouter {
        PeekKeeps(s.inbound, n);
        InboundKeeps(c, s, PeekMore(s.inbound, n));
      }
    case _ =>
      assert Wire(c, ServerStep(c, s, e)) == Wire(c, s);
  }

  lemma CopyingKeeps(c: Setup, s: Link, e: Event)
    requires Inv(c, s)
    requires e.ServerRead? || e.ServerEof? || e.ServerBreaks? || e.InboundFails?
    ensures Inv(c, ServerStep(c, s, e))
  {
    match e
    case ServerRead(n) =>
      ReadKeeps(s.inbound, n);
      InboundKeeps(c, s, LegRead(s.inbound, n));
    case InboundFails =>
      InboundKeeps(c, s, LegFail(s.inbound));
    case ServerEof =>
      if s.server.ServerCopying? && s.publicClosed && s.inbound.pos == |s.inbound.arrived| {
        EofKeeps(s.inbound);
        InboundKeeps(c, s, LegEof(s.inbound));
      }
    case ServerBreaks =>
      InboundKeeps(c, s, LegFail(s.inbound));
      ReturningKeeps(c, s.(inbound := LegFail(s.inbound)), LegFail(s.returning));
  }

  lemma ReturnKeeps(c: Setup, s: Link, e: Event)
    requires Inv(c, s) && (e.ReturnRead? || e.ReturnWrite? || e.ReturnEof? || e.ReturnFails?)
    ensures Inv(c, ServerStep(c, s, e))
  {
    match e
    case ReturnRead(n) =>
      ReadKeeps(s.returning, n);
      ReturningKeeps(c, s, LegRead(s.returning, n));
    case ReturnWrite(n, ok) =>
      WriteKeeps(s.returning, n, ok);
      ReturningKeeps(c, s, LegWrite(s.returning, n, ok));
    case ReturnEof =>
      EofKeeps(s.returning);
      ReturningKeeps(c, s, LegEof(s.returning));
    case ReturnFails =>
      ReturningKeeps(c, s, LegFail(s.returning));
  }

  lemma ServerStepKeeps(c: Setup, s: Link, e: Event)
    requires Inv(c, s)
    ensures Inv(c, ServerStep(c, s, e))
  {
    match e
    case SendHeader(n) => SendHeaderKeeps(c, s, n);
    case ServerWrite(n, ok) => ServerWriteKeeps(c, s, n, ok);
    case ReturnRead(_) => ReturnKeeps(c, s, e);
    case ReturnWrite(_, _) => ReturnKeeps(c, s, e);
    case ReturnEof => ReturnKeeps(c, s, e);
    case ReturnFails => ReturnKeeps(c, s, e);
    case InboundFails => CopyingKeeps(c, s, e);
    case PublicSends(_) => OpeningKeeps(c, s, e);
    case PublicCloses => OpeningKeeps(c, s, e);
    case PeekRead(_) => OpeningKeeps(c, s, e);
    case PeekDone => OpeningKeeps(c, s, e);
    case SessionLost => OpeningKeeps(c, s, e);
    case ServerRead(_) => CopyingKeeps(c, s, e);
    case ServerEof => CopyingKeeps(c, s, e);
    case ServerBreaks => CopyingKeeps(c, s, e);
    case _ =>
  }

  /** Steps of the server's relaying towards the public client. */
  lemma ReturningKeeps(c: Setup, s: Link, returning: Leg)
    requires Inv(c, s)
    requires LegInv(returning) && returning.base == 0 && returning.arrived == s.returning.arrived
    ensures Inv(c, s.(returning := returning))
    ensures Inv(c, s.(returning := returning, server := ServerGone))
  {
    assert Wire(c, s.(returning := returning)) == Wire(c, s);
    assert Wire(c, s.(returning := returning, server := ServerGone)) == Wire(c, s);
  }

  lemma ReceiveHeaderKeeps(c: Setup, s: Link)
    requires Inv(c, s)
    ensures Inv(c, ClientStep(c, s, ReceiveHeader))
  {
    if DecodeFrame(Wire(c, s)).Parsed? && s.client.AwaitingHeader? {
      HeaderArrives(c, s);
      WireBehindHeader(c, s);
      var read := |HeaderFrame(c)|;
      assert s.delivery.arrived[read..read] == [];
      assert LegInv(s.delivery.(base := read, pos := read));
    }
  }

  /** Steps of the client's relaying towards the local service. */
  lemma DeliveryKeeps(c: Setup, s: Link, delivery: Leg)
    requires Inv(c, s) && s.client.ClientCopying?
    requires LegInv(delivery) && delivery.base == s.delivery.base && delivery.arrived == s.delivery.arrived
    ensures Inv(c, s.(delivery := delivery))
  {
    assert Wire(c, s.(delivery := delivery)) == Wire(c, s);
  }

  lemma ClientStepKeeps(c: Setup, s: Link, e: Event)
    requires Inv(c, s)
    ensures Inv(c, ClientStep(c, s, e))
  {
    match e
    case ReceiveHeader => ReceiveHeaderKeeps(c, s);
    case ClientRead(_) => ClientDeliveryKeeps(c, s, e);
    case ClientWrite(_, _) => ClientDeliveryKeeps(c, s, e);
    case ClientEof => ClientDeliveryKeeps(c, s, e);
    case DeliveryFails => ClientDeliveryKeeps(c, s, e);
    case SendPreamble(n) => SendPreambleKeeps(c, s, n);
    case ReplyRead(_) => ClientReplyKeeps(c, s, e);
    case ReplyWrite(_, _) => ClientReplyKeeps(c, s, e);
    case ReplyEof => ClientReplyKeeps(c, s, e);
    case ReplyFails => ClientReplyKeeps(c, s, e);
    case LocalSends(_) => LocalKeeps(c, s, e);
    case LocalCloses => LocalKeeps(c, s, e);
    case ClientBreaks => LocalKeeps(c, s, e);
    case _ =>
  }

  lemma ClientDeliveryKeeps(c: Setup, s: Link, e: Event)
    requires Inv(c, s) && (e.ClientRead? || e.ClientWrite? || e.ClientEof? || e.DeliveryFails?)
    ensures Inv(c, ClientStep(c, s, e))
  {
    if s.client.ClientCopying? {
      match e
      case ClientRead(n) =>
        ReadKeeps(s.delivery, n);
        DeliveryKeeps(c, s, LegRead(s.delivery, n));
      case ClientWrite(n, ok) =>
        WriteKeeps(s.delivery, n, ok);
        DeliveryKeeps(c, s, LegWrite(s.delivery, n, ok));
      case ClientEof =>
        EofKeeps(s.delivery);
        DeliveryKeeps(c, s, LegEof(s.delivery));
      case DeliveryFails =>
        DeliveryKeeps(c, s, LegFail(s.delivery));
    }
  }

  lemma ClientReplyKeeps(c: Setup, s: Link, e: Event)
    requires Inv(c, s) && (e.ReplyRead? || e.ReplyWrite? || e.ReplyEof? || e.ReplyFails?)
    ensures Inv(c, ClientStep(c, s, e))
  {
    match e
    case ReplyRead(n) =>
      ReadKeeps(s.reply, n);
      ReplyKeeps(c, s, LegRead(s.reply, n));
    case ReplyWrite(n, ok) =>
      WriteKeeps(s.reply, n, ok);
      ReplyKeeps(c, s, LegWrite(s.reply, n, ok));
    case ReplyEof =>
      EofKeeps(s.reply);
      ReplyKeeps(c, s, LegEof(s.reply));
    case ReplyFails =>
      ReplyKeeps(c, s, LegFail(s.reply));
  }

  lemma LocalKeeps(c: Setup, s: Link, e: Event)
    requires Inv(c, s) && (e.LocalSends? || e.LocalCloses? || e.ClientBreaks?)
    ensures Inv(c, ClientStep(c, s, e))
  {
    match e
    case LocalSends(bytes) =>
      GrowKeeps(s.reply, s.reply.arrived + bytes);
      ReplyKeeps(c, s, Grow(s.reply, s.reply.arrived + bytes));
    case LocalCloses =>
      assert Wire(c, s.(localClosed := true)) == Wire(c, s);
    case ClientBreaks =>
      ReplyKeeps(c, s, LegFail(s.reply));
      BreakKeeps(c, s.(reply := LegFail(s.reply)));
  }

  lemma SendPreambleKeeps(c: Setup, s: Link, n: nat)
    requires Inv(c, s)
    ensures Inv(c, ClientStep(c, s, SendPreamble(n)))
  {
    assert Wire(c, ClientStep(c, s, SendPreamble(n))) == Wire(c, s);
  }

  lemma BreakKeeps(c: Setup, s: Link)
    requires Inv(c, s)
    ensures Inv(c, s.(client := ClientGone, delivery := LegFail(s.delivery)))
  {
    assert Wire(c, s.(client := ClientGone, delivery := LegFail(s.delivery))) == Wire(c, s);
  }

  /** Steps of the client's relaying towards the server. */
  lemma ReplyKeeps(c: Setup, s: Link, reply: Leg)
    requires Inv(c, s)
    requires LegInv(reply) && reply.base == 0 && s.reply.written <= reply.written
    ensures reply.written == s.reply.written ==> Inv(c, s.(reply := reply))
    ensures Inv(c, s.(reply := reply, returning := Grow(s.returning, reply.written)))
  {
    GrowKeeps(s.returning, reply.written);
    assert Wire(c, s.(reply := reply)) == Wire(c, s);
    assert Wire(c, s.(reply := reply, returning := Grow(s.returning, reply.written))) == Wire(c, s);
  }

  lemma {:induction false} RunKeeps(c: Setup, events: seq<Event>)
    ensures Inv(c, Run(c, events))
  {
    if events != [] {
      var before := events[..|events| - 1];
      RunKeeps(c, before);
      var e := events[|events| - 1];
      ServerStepKeeps(c, Run(c, before), e);
      ClientStepKeeps(c, ServerStep(c, Run(c, before), e), e);
    }
  }

  // ---- Transparency ------------------------------------------------------------------------------------

  /** What the local service is meant to see: the PROXY line if asked for, then the public stream. */
  function Intended(c: Setup, s: Link): seq<byte> {
    PreambleFor(c, c.header) + s.inbound.arrived
  }

  /**
   At every moment of every run the local service has been given a prefix of the PROXY
   line (made from the header the server wrote) followed by the public client's stream
   from its very first byte, and the public client a prefix of what the local service sent.
   */
  lemma Transparent(c: Setup, events: seq<Event>)
    ensures var s := Run(c, events);
            && Local(c, s) <= Intended(c, s)
            && (c.proxyProtocol ==> Local(c, s) <= c.proxyLine(c.header) + s.inbound.arrived)
            && (!c.proxyProtocol ==> Local(c, s) <= s.inbound.arrived)
            && s.returning.written <= s.reply.arrived
  {
    RunKeeps(c, events);
    PrefixOfIntended(c, Run(c, events));
    IntendedIs(c, Run(c, events));
  }

  /** The PROXY line is there exactly if the tunnel asks for it. */
  lemma IntendedIs(c: Setup, s: Link)
    ensures c.proxyProtocol ==> Intended(c, s) == c.proxyLine(c.header) + s.inbound.arrived
    ensures !c.proxyProtocol ==> Intended(c, s) == s.inbound.arrived
  {
    assert [] + s.inbound.arrived == s.inbound.arrived;
  }

  lemma PrefixOfIntended(c: Setup, s: Link)
    requires Inv(c, s)
    ensures Local(c, s) <= Intended(c, s)
    ensures s.returning.written <= s.reply.arrived
    ensures s.delivery.written <= s.inbound.written <= s.inbound.arrived
    ensures s.learned.Some? && s.preambleSent == |PreambleFor(c, c.header)| ==>
              Local(c, s) == PreambleFor(c, c.header) + s.delivery.written
  {
    PrefixOfSource(s.reply);
    PrefixOfSource(s.inbound);
    PrefixOfSource(s.returning);
    DeliveredIsInbound(c, s);
    var pre := PreambleFor(c, c.header);
    if s.learned.Some? && s.preambleSent == |pre| {
      assert pre[..|pre|] == pre;
      Behind(pre, s.delivery.written, s.inbound.arrived);
    } else if s.learned.Some? {
      assert Local(c, s) == pre[..s.preambleSent];
    } else {
      assert Local(c, s) == [];
    }
  }

  lemma Behind(pre: seq<byte>, a: seq<byte>, b: seq<byte>)
    requires a <= b
    ensures pre + a <= pre + b
  {}

  lemma PrefixOfSource(l: Leg)
    requires LegInv(l) && l.base == 0
    ensures l.written <= l.arrived
  {
    assert l.arrived[0..l.pos] <= l.arrived;
  }

  lemma DeliveredIsInbound(c: Setup, s: Link)
    requires Inv(c, s)
    ensures s.delivery.written <= s.inbound.written
  {
    if s.learned.Some? {
      WireBehindHeader(c, s);
      assert s.delivery.arrived[s.delivery.base..s.delivery.pos] <= s.delivery.arrived[s.delivery.base..];
    }
  }

  /**
   When both copies have ended at end-of-file, the local service got the whole stream exactly
   if the client had read the multiplexed stream to its end.
   */
  lemma CompleteAtEof(c: Setup, events: seq<Event>)
    requires Run(c, events).inbound.ending.AtEof? && Run(c, events).delivery.ending.AtEof?
    ensures var s := Run(c, events);
            Local(c, s) == Intended(c, s) <==> s.delivery.pos == |Wire(c, s)|
  {
    RunKeeps(c, events);
    var s := Run(c, events);
    PrefixOfIntended(c, s);
    WireBehindHeader(c, s);
    assert s.inbound.written == s.inbound.arrived[0..|s.inbound.arrived|] == s.inbound.arrived;
    assert |s.delivery.written| == s.delivery.pos - |HeaderFrame(c)|;
    assert |Local(c, s)| - |PreambleFor(c, c.header)| == |s.delivery.written|;
  }

  /** And it had, if its copy of the replies was still going when it saw the end, and the session alive. */
  lemma EndIsTheEnd(c: Setup, events: seq<Event>)
    requires Run(c, events).delivery.ending.Running? && Run(c, events + [ClientEof]).delivery.ending.AtEof?
    requires Run(c, events).inbound.ending.AtEof? && Run(c, events).reply.ending.Running? && !Run(c, events).sessionLost
    ensures var s := Run(c, events + [ClientEof]);
            && Local(c, s) == Intended(c, s) && s.inbound.ending.AtEof?
            && (c.proxyProtocol ==> Local(c, s) == c.proxyLine(c.header) + s.inbound.arrived)
            && (!c.proxyProtocol ==> Local(c, s) == s.inbound.arrived)
  {
    IntendedIs(c, Run(c, events + [ClientEof]));
    RunKeeps(c, events);
    RunSnoc(c, events, ClientEof);
    EofStep(c, Run(c, events), Run(c, events + [ClientEof]));
    CompleteAtEof(c, events + [ClientEof]);
  }

  lemma EofStep(c: Setup, s: Link, t: Link)
    requires Chained(c, s) && t == Step(c, s, ClientEof) && s.delivery.ending.Running? && t.delivery.ending.AtEof?
    requires s.reply.ending.Running? && !s.sessionLost
    ensures t.inbound == s.inbound && t.delivery.pos == |Wire(c, t)|
  {
    assert ServerStep(c, s, ClientEof) == s;
    assert t == s.(delivery := LegEof(s.delivery));
    assert Wire(c, t) == Wire(c, s);
  }

  // ---- The way back, to its end ----------------------------------------------------------------------

  /** A copy that ends at end-of-file has read everything its source sent. */
  ghost predicate SourcesEnd(s: Link) {
    && (s.inbound.ending.AtEof? ==> s.publicClosed && s.inbound.pos == |s.inbound.arrived|)
    && (s.reply.ending.AtEof? ==> s.localClosed && s.reply.pos == |s.reply.arrived|)
  }

  lemma ServerSources(c: Setup, s: Link, e: Event, t: Link)
    requires SourcesEnd(s) && t == ServerStep(c, s, e)
    ensures SourcesEnd(t)
  {}

  lemma ClientSources(c: Setup, s: Link, e: Event, t: Link)
    requires SourcesEnd(s) && t == ClientStep(c, s, e)
    ensures SourcesEnd(t)
  {}

  lemma {:induction false} RunSources(c: Setup, events: seq<Event>)
    ensures SourcesEnd(Run(c, events))
  {
    if events != [] {
      var s, e := Run(c, events[..|events| - 1]), events[|events| - 1];
      RunSources(c, events[..|events| - 1]);
      ServerSources(c, s, e, ServerStep(c, s, e));
      ClientSources(c, ServerStep(c, s, e), e, Run(c, events));
    }
  }

  /** The same for the replies: everything arrived exactly if the server read the stream to its end ... */
  lemma RepliesCompleteAtEof(c: Setup, events: seq<Event>)
    requires Run(c, events).reply.ending.AtEof? && Run(c, events).returning.ending.AtEof?
    ensures var s := Run(c, events);
            s.returning.written == s.reply.arrived <==> s.returning.pos == |s.reply.written|
  {
    RunKeeps(c, events);
    RunSources(c, events);
    var s := Run(c, events);
    assert s.reply.written == s.reply.arrived[0..|s.reply.arrived|] == s.reply.arrived;
    assert s.returning.written == s.returning.arrived[0..s.returning.pos];
  }

  /** ... which it had, if its copy of the public stream was still going, and the session alive. */
  lemma RepliesEndIsTheEnd(c: Setup, events: seq<Event>)
    requires Run(c, events).returning.ending.Running? && Run(c, events + [ReturnEof]).returning.ending.AtEof?
    requires Run(c, events).reply.ending.AtEof? && Run(c, events).inbound.ending.Running? && !Run(c, events).sessionLost
    ensures var s := Run(c, events + [ReturnEof]);
            s.returning.written == s.reply.arrived
  {
    RunKeeps(c, events);
    RunSnoc(c, events, ReturnEof);
    RepliesCompleteAtEof(c, events + [ReturnEof]);
  }

  /** Once the inbound bytes are delivered, or their delivery failed, no reply is read any more. */
  lemma StopsReading(c: Setup, s: Link, e: Event, t: Link)
    requires !s.delivery.ending.Running? && t == Step(c, s, e)
    ensures !t.delivery.ending.Running? && t.reply.pos == s.reply.pos && s.reply.arrived <= t.reply.arrived
  {
    ServerLeavesReply(c, s, e, ServerStep(c, s, e));
    ClientReadsNothing(c, ServerStep(c, s, e), e, t);
  }

  lemma ServerLeavesReply(c: Setup, s: Link, e: Event, t: Link)
    requires t == ServerStep(c, s, e)
    ensures t.reply == s.reply && t.delivery.ending == s.delivery.ending
  {}

  lemma ClientReadsNothing(c: Setup, s: Link, e: Event, t: Link)
    requires !s.delivery.ending.Running? && t == ClientStep(c, s, e)
    ensures !t.delivery.ending.Running? && t.reply.pos == s.reply.pos && s.reply.arrived <= t.reply.arrived
  {}

  lemma {:induction false} NoMoreReplies(c: Setup, before: seq<Event>, after: seq<Event>)
    requires !Run(c, before).delivery.ending.Running?
    ensures var s, t := Run(c, before), Run(c, before + after);
            !t.delivery.ending.Running? && t.reply.pos == s.reply.pos && s.reply.arrived <= t.reply.arrived
  {
    if after == [] {
      assert before + after == before;
    } else {
      var front, e := after[..|after| - 1], after[|after| - 1];
      assert before + after == (before + front) + [e];
      NoMoreReplies(c, before, front);
      RunSnoc(c, before + front, e);
      StopsReading(c, Run(c, before + front), e, Run(c, before + after));
    }
  }

  /**
   A public client that stops sending gets only the replies the machine had read by the time
   the last of its bytes was delivered: delivering the end closes the local connection.
   */
  lemma RepliesEndWithInbound(c: Setup, before: seq<Event>, after: seq<Event>)
    requires !Run(c, before).delivery.ending.Running?
    ensures var s := Run(c, before);
            s.reply.pos <= |s.reply.arrived|
            && Run(c, before + after).returning.written <= s.reply.arrived[..s.reply.pos]
  {
    RunKeeps(c, before);
    RunKeeps(c, before + after);
    NoMoreReplies(c, before, after);
    var s, t := Run(c, before), Run(c, before + after);
    assert t.reply.written <= t.reply.arrived[0..t.reply.pos];
    assert t.returning.written <= t.returning.arrived[0..t.returning.pos];
    assert t.reply.arrived[..t.reply.pos] == s.reply.arrived[..s.reply.pos];
  }

  /** Everyone on the way back is still at work, and the local service may send more. */
  predicate Flowing(s: Link) {
    && s.server.ServerCopying? && s.client.ClientCopying? && !s.localClosed
    && s.reply.ending.Running? && s.returning.ending.Running?
  }

  /** Nothing is peeked on the way back. */
  predicate NothingPeeked(s: Link) {
    s.reply.ahead == s.returning.ahead == []
  }

  lemma ServerPeeksNothing(c: Setup, s: Link, e: Event, t: Link)
    requires NothingPeeked(s) && t == ServerStep(c, s, e)
    ensures NothingPeeked(t)
  {}

  lemma ClientPeeksNothing(c: Setup, s: Link, e: Event, t: Link)
    requires NothingPeeked(s) && t == ClientStep(c, s, e)
    ensures NothingPeeked(t)
  {}

  lemma {:induction false} RunPeeksNothing(c: Setup, events: seq<Event>)
    ensures NothingPeeked(Run(c, events))
  {
    if events != [] {
      var s, e := Run(c, events[..|events| - 1]), events[|events| - 1];
      RunPeeksNothing(c, events[..|events| - 1]);
      ServerPeeksNothing(c, s, e, ServerStep(c, s, e));
      ClientPeeksNothing(c, ServerStep(c, s, e), e, Run(c, events));
    }
  }

  // The machine's share of bringing one more reply: send, flush, read, write.

  lemma SendMore(c: Setup, s: Link, t: Link)
    requires Flowing(s) && NothingPeeked(s) && t == Step(c, s, LocalSends([0]))
    ensures t == s.(reply := s.reply.(arrived := s.reply.arrived + [0]))
  {}

  lemma FlushReply(c: Setup, s: Link, t: Link)
    requires Flowing(s) && NothingPeeked(s) && t == Step(c, s, ReplyWrite(0, true))
    ensures Flowing(t) && NothingPeeked(t) && t.delivery == s.delivery && t.reply.held == [] && t.reply.pos == s.reply.pos
    ensures t.reply.arrived == s.reply.arrived && t.reply.written == s.reply.written + s.reply.held
    ensures t.returning.arrived == t.reply.written
  {}

  lemma ReadReply(c: Setup, s: Link, t: Link)
    requires Flowing(s) && NothingPeeked(s) && s.reply.held == [] && s.delivery.ending.Running? && s.reply.pos <= |s.reply.arrived|
    requires t == Step(c, s, ReplyRead(|s.reply.arrived|))
    ensures Flowing(t) && NothingPeeked(t) && t.delivery == s.delivery
    ensures t.reply.pos == |s.reply.arrived| && t.reply.arrived == s.reply.arrived
  {}

  // The server's share: flush, read, write.

  lemma FlushReturn(c: Setup, s: Link, t: Link)
    requires Flowing(s) && NothingPeeked(s) && t == Step(c, s, ReturnWrite(0, true))
    ensures Flowing(t) && NothingPeeked(t) && t.returning.held == [] && t.returning.pos == s.returning.pos
    ensures t.returning.arrived == s.returning.arrived && t.returning.written == s.returning.written + s.returning.held
  {}

  lemma ReadReturn(c: Setup, s: Link, t: Link)
    requires Flowing(s) && NothingPeeked(s) && s.returning.held == [] && s.returning.pos <= |s.returning.arrived|
    requires t == Step(c, s, ReturnRead(|s.returning.arrived|))
    ensures Flowing(t) && NothingPeeked(t)
    ensures t.returning.pos == |s.returning.arrived| && t.returning.arrived == s.returning.arrived
  {}

  /** While the machine still delivers, more than it has read by now can reach the stream ... */
  lemma MoreReachesStream(c: Setup, before: seq<Event>) returns (events: seq<Event>)
    requires Flowing(Run(c, before)) && Run(c, before).delivery.ending.Running?
    ensures var s, t := Run(c, before), Run(c, events);
            && before <= events && Flowing(t) && |t.returning.arrived| > s.reply.pos
  {
    var s := Run(c, before);
    RunKeeps(c, before);
    RunPeeksNothing(c, before);
    events := before + [LocalSends([0])];
    RunSnoc(c, before, LocalSends([0]));
    var s1 := Run(c, events);
    SendMore(c, s, s1);
    RunSnoc(c, events, ReplyWrite(0, true));
    events := events + [ReplyWrite(0, true)];
    var s2 := Run(c, events);
    FlushReply(c, s1, s2);
    RunSnoc(c, events, ReplyRead(|s2.reply.arrived|));
    events := events + [ReplyRead(|s2.reply.arrived|)];
    var s3 := Run(c, events);
    ReadReply(c, s2, s3);
    RunSnoc(c, events, ReplyWrite(0, true));
    events := events + [ReplyWrite(0, true)];
    FlushReply(c, s3, Run(c, events));
    RunKeeps(c, events);
    AllWritten(Run(c, events).reply);
  }

  /** A copy that holds nothing has written everything it read. */
  lemma AllWritten(l: Leg)
    requires LegInv(l) && l.base == 0 && l.ending.Running? && l.held == l.ahead == []
    ensures l.written == l.arrived[..l.pos] && |l.written| == l.pos
  {
    assert l.written + l.held + l.ahead == l.written;
  }

  /** ... and everything in the stream can reach the public client. */
  lemma StreamReachesPublic(c: Setup, before: seq<Event>) returns (events: seq<Event>)
    requires Flowing(Run(c, before))
    ensures before <= events && |Run(c, events).returning.written| == |Run(c, before).returning.arrived|
  {
    var s := Run(c, before);
    RunKeeps(c, before);
    RunPeeksNothing(c, before);
    events := before + [ReturnWrite(0, true)];
    RunSnoc(c, before, ReturnWrite(0, true));
    var s1 := Run(c, events);
    FlushReturn(c, s, s1);
    RunSnoc(c, events, ReturnRead(|s1.returning.arrived|));
    events := events + [ReturnRead(|s1.returning.arrived|)];
    var s2 := Run(c, events);
    ReadReturn(c, s1, s2);
    RunSnoc(c, events, ReturnWrite(0, true));
    events := events + [ReturnWrite(0, true)];
    FlushReturn(c, s2, Run(c, events));
    RunKeeps(c, events);
    AllWritten(Run(c, events).returning);
  }

  /**
   Exactly when replies still flow: in any state in which both copies of the way back are
   at work and the local service may go on, the public client can get more than the machine
   has read by now if and only if the machine's delivery of the inbound bytes has not ended.
   */
  lemma RepliesFlowExactlyIf(c: Setup, before: seq<Event>)
    requires Flowing(Run(c, before))
    ensures (exists after :: |Run(c, before + after).returning.written| > Run(c, before).reply.pos)
       <==> Run(c, before).delivery.ending.Running?
  {
    var s := Run(c, before);
    if s.delivery.ending.Running? {
      var mid := MoreReachesStream(c, before);
      var events := StreamReachesPublic(c, mid);
      assert events == before + events[|before|..];
    } else {
      forall after ensures |Run(c, before + after).returning.written| <= s.reply.pos {
        RepliesEndWithInbound(c, before, after);
      }
    }
  }

  lemma RunSnoc(c: Setup, events: seq<Event>, e: Event)
    ensures Run(c, events + [e]) == Step(c, Run(c, events), e)
  {
    assert (events + [e])[..|events|] == events;
  }

  const Quiet := Setup(false, [], false, (header: Payload) => [])

  /** Two events in a row. */
  lemma RunSnoc2(c: Setup, events: seq<Event>, e: Event, f: Event)
    ensures Run(c, events + [e, f]) == Step(c, Step(c, Run(c, events), e), f)
  {
    assert events + [e, f] == (events + [e]) + [f];
    RunSnoc(c, events, e);
    RunSnoc(c, events + [e], f);
  }

  /** The public client has sent one byte and closed; the stream is being opened. */
  lemma OneByteSent() returns (events: seq<Event>)
    ensures Run(Quiet, events)
         == Start.(publicClosed := true, server := SendingHeader, inbound := IdleLeg.(arrived := [7]))
  {
    RunSnoc2(Quiet, [], PublicSends([7]), PublicCloses);
    assert [] + [7 as byte] == [7];
    events := [] + [PublicSends([7]), PublicCloses];
    RunSnoc(Quiet, events, PeekDone);
    events := events + [PeekDone];
  }

  lemma OneByteWaiting() returns (events: seq<Event>)
    ensures var s := Run(Quiet, events);
            && s.server.ServerCopying? && s.client.ClientCopying? && s.publicClosed && s.learned.Some?
            && s.inbound == IdleLeg.(arrived := [7])
            && s.delivery.held == s.delivery.ahead == s.delivery.written == [] && s.delivery.ending.Running?
            && s.reply == s.returning == IdleLeg && !s.sessionLost && !s.localClosed
  {
    var before := OneByteSent();
    FrameRoundTrip([], []);
    assert HeaderFrame(Quiet)[..4] == HeaderFrame(Quiet) && HeaderFrame(Quiet) + [] == HeaderFrame(Quiet);
    RunSnoc2(Quiet, before, SendHeader(4), ReceiveHeader);
    events := before + [SendHeader(4), ReceiveHeader];
  }

  lemma OneByteForwarded() returns (events: seq<Event>)
    ensures var s := Run(Quiet, events);
            && s.client.ClientCopying? && s.learned.Some?
            && s.inbound == Leg([7], 0, 1, [], [], [7], AtEof)
            && s.delivery.held == s.delivery.ahead == s.delivery.written == [] && s.delivery.ending.Running?
            && s.reply == s.returning == IdleLeg && !s.sessionLost && !s.localClosed
  {
    var before := OneByteWaiting();
    RunSnoc2(Quiet, before, ServerRead(1), ServerWrite(1, true));
    assert [] + [7 as byte] == [7] && [7 as byte][0..1] == [7];
    var mid := before + [ServerRead(1), ServerWrite(1, true)];
    RunSnoc(Quiet, mid, ServerEof);
    events := mid + [ServerEof];
  }

  /**
   A session that dies at the wrong moment does truncate: the client's copy ends at a
   clean end-of-file and the local service never sees a byte the server had accepted.
   */
  lemma LostSessionTruncates()
    ensures exists c: Setup, events: seq<Event> ::
              && Run(c, events).inbound.ending.AtEof? && Run(c, events).delivery.ending.AtEof?
              && Local(c, Run(c, events)) != Intended(c, Run(c, events))
  {
    var before := OneByteForwarded();
    RunSnoc2(Quiet, before, SessionLost, ClientEof);
    var s := Run(Quiet, before + [SessionLost, ClientEof]);
    assert s.delivery.ending.AtEof? && s.delivery.written == [];
    assert |Local(Quiet, s)| == 0 && |Intended(Quiet, s)| == 1;
  }

  /** The whole stream of one byte is delivered, and its end. */
  lemma OneByteDelivered() returns (events: seq<Event>)
    ensures var s := Run(Quiet, events);
            && Local(Quiet, s) == Intended(Quiet, s) == [7]
            && s.delivery.ending.AtEof? && !s.sessionLost && !s.localClosed && s.reply == IdleLeg
  {
    var before := OneByteForwarded();
    var s := Run(Quiet, before);
    RunSnoc2(Quiet, before, ClientRead(1), ClientWrite(1, true));
    var mid := before + [ClientRead(1), ClientWrite(1, true)];
    RunKeeps(Quiet, before);
    WireBehindHeader(Quiet, s);
    DeliverOne(s, Run(Quiet, mid));
    RunSnoc(Quiet, mid, ClientEof);
    events := mid + [ClientEof];
  }

  lemma DeliverOne(s: Link, t: Link)
    requires Inv(Quiet, s) && s.client.ClientCopying? && s.learned.Some? && s.inbound == Leg([7], 0, 1, [], [], [7], AtEof)
    requires s.delivery.held == s.delivery.ahead == s.delivery.written == [] && s.delivery.ending.Running?
    requires t == Step(Quiet, Step(Quiet, s, ClientRead(1)), ClientWrite(1, true))
    ensures t == s.(delivery := s.delivery.(pos := |s.delivery.arrived|, written := [7]))
    ensures t.delivery.held == t.delivery.ahead == []
  {
    WireBehindHeader(Quiet, s);
    assert s.delivery.arrived == HeaderFrame(Quiet) + [7];
    assert s.delivery.arrived[|HeaderFrame(Quiet)|..|HeaderFrame(Quiet)| + 1] == [7];
    assert [] + [7 as byte] == [7];
  }

  /** A reply sent after that is lost, however long everyone waits: half-closing a connection ends it. */
  lemma HalfCloseLosesReplies()
    ensures exists before ::
              && Local(Quiet, Run(Quiet, before)) == Intended(Quiet, Run(Quiet, before)) == [7]
              && !Run(Quiet, before).sessionLost && !Run(Quiet, before).localClosed
              && forall after :: Run(Quiet, before + after).returning.written == []
  {
    var before := OneByteDelivered();
    forall after ensures Run(Quiet, before + after).returning.written == [] {
      RepliesEndWithInbound(Quiet, before, after);
    }
  }

  /** When a side breaks, both its copies are over, with what they have written by then. */
  lemma BreakEndsCopies(c: Setup, s: Link, server: bool)
    ensures var t := Step(c, s, if server then ServerBreaks else ClientBreaks);
            if server then
              && !t.inbound.ending.Running? && !t.returning.ending.Running?
              && t.inbound.written == s.inbound.written && t.returning.written == s.returning.written
            else
              && !t.delivery.ending.Running? && !t.reply.ending.Running?
              && t.delivery.written == s.delivery.written && t.reply.written == s.reply.written
  {}

  // ---- What gets through when nothing fails --------------------------------------------------------------------

  /** Nobody has failed or replied yet. */
  predicate Quietly(s: Link) {
    !s.sessionLost && s.reply == s.returning == IdleLeg && !s.localClosed
  }

  /** The public client has sent everything; if it came through the router all of it was peeked. */
  predicate Opened(s: Link, bytes: seq<byte>) {
    && Quietly(s) && s.server.SendingHeader? && s.client.AwaitingHeader? && s.headerSent == 0 && s.preambleSent == 0
    && s.publicClosed && s.inbound.arrived == bytes && s.delivery == IdleLeg && s.learned.None?
    && (s.inbound == StartLeg([], bytes) || s.inbound == StartLeg(bytes, bytes))
  }

  lemma Opening(c: Setup, bytes: seq<byte>) returns (events: seq<Event>)
    requires c.viaRouter ==> Handshake.ParseHostname(bytes).Some?
    ensures Opened(Run(c, events), bytes)
  {
    RunSnoc2(c, [], PublicSends(bytes), PublicCloses);
    events := [] + [PublicSends(bytes), PublicCloses];
    assert [] + bytes == bytes;
    var sent := Start.(publicClosed := true, inbound := IdleLeg.(arrived := bytes));
    assert Run(c, events) == sent;
    if c.viaRouter {
      RunSnoc(c, events, PeekRead(|bytes|));
      PeeksAll(c, sent, bytes, Run(c, events + [PeekRead(|bytes|)]));
      events := events + [PeekRead(|bytes|)];
    }
    RunSnoc(c, events, PeekDone);
    events := events + [PeekDone];
  }

  lemma PeeksAll(c: Setup, s: Link, bytes: seq<byte>, t: Link)
    requires c.viaRouter && s.server.Peeking? && s.inbound == IdleLeg.(arrived := bytes) && t == Step(c, s, PeekRead(|bytes|))
    ensures t == s.(inbound := StartLeg(bytes, bytes))
  {
    assert bytes[0..|bytes|] == bytes && [] + bytes == bytes;
  }

  /** The header and the PROXY line are through and both copies run. */
  predicate BothCopy(c: Setup, s: Link, bytes: seq<byte>) {
    && Quietly(s) && s.server.ServerCopying? && s.client.ClientCopying?
    && s.learned == Some(c.header) && s.preambleSent == |PreambleFor(c, c.header)|
    && s.headerSent == |HeaderFrame(c)| && s.publicClosed
    && (s.inbound == StartLeg([], bytes) || s.inbound == StartLeg(bytes, bytes))
    && s.delivery == Leg(HeaderFrame(c), |HeaderFrame(c)|, |HeaderFrame(c)|, [], [], [], Running)
  }

  lemma HeaderSent(c: Setup, s: Link, bytes: seq<byte>, t: Link)
    requires Opened(s, bytes) && t == Step(c, s, SendHeader(|HeaderFrame(c)|))
    ensures t == s.(headerSent := |HeaderFrame(c)|, server := ServerCopying, delivery := IdleLeg.(arrived := HeaderFrame(c)))
  {
    assert HeaderFrame(c)[..|HeaderFrame(c)|] + [] == HeaderFrame(c);
  }

  lemma HeaderRead(c: Setup, s: Link, t: Link)
    requires s.client.AwaitingHeader? && s.headerSent == |HeaderFrame(c)| && s.inbound.written == []
    requires s.delivery == IdleLeg.(arrived := HeaderFrame(c)) && t == Step(c, s, ReceiveHeader)
    ensures t == s.(client := if PreambleFor(c, c.header) == [] then ClientCopying else SendingPreamble, learned := Some(c.header),
                    delivery := Leg(HeaderFrame(c), |HeaderFrame(c)|, |HeaderFrame(c)|, [], [], [], Running))
  {
    FrameRoundTrip(c.header, []);
    assert HeaderFrame(c)[..|HeaderFrame(c)|] + [] == HeaderFrame(c);
    assert Wire(c, s) == HeaderFrame(c) + [];
  }

  lemma PreambleSent(c: Setup, s: Link, t: Link)
    requires s.learned == Some(c.header) && s.preambleSent == 0 && t == Step(c, s, SendPreamble(|PreambleFor(c, c.header)|))
    requires s.client == if PreambleFor(c, c.header) == [] then ClientCopying else SendingPreamble
    ensures t == s.(preambleSent := |PreambleFor(c, c.header)|, client := ClientCopying)
  {}

  lemma HeaderThrough(c: Setup, before: seq<Event>, bytes: seq<byte>) returns (events: seq<Event>)
    requires Opened(Run(c, before), bytes)
    ensures BothCopy(c, Run(c, events), bytes)
  {
    RunSnoc(c, before, SendHeader(|HeaderFrame(c)|));
    events := before + [SendHeader(|HeaderFrame(c)|)];
    HeaderSent(c, Run(c, before), bytes, Run(c, events));
    RunSnoc(c, events, ReceiveHeader);
    HeaderRead(c, Run(c, events), Run(c, events + [ReceiveHeader]));
    events := events + [ReceiveHeader];
    RunSnoc(c, events, SendPreamble(|PreambleFor(c, c.header)|));
    PreambleSent(c, Run(c, events), Run(c, events + [SendPreamble(|PreambleFor(c, c.header)|)]));
    events := events + [SendPreamble(|PreambleFor(c, c.header)|)];
  }

  lemma ServerReads(c: Setup, s: Link, bytes: seq<byte>, t: Link)
    requires BothCopy(c, s, bytes) && t == Step(c, s, ServerRead(|bytes|))
    ensures t == s.(inbound := StartLeg([], bytes).(pos := |bytes|, held := bytes))
  {
    assert bytes[0..|bytes|] == bytes && bytes[|bytes|..|bytes|] == [] && bytes[..|bytes|] == bytes && bytes[|bytes|..] == [];
  }

  lemma ServerWrites(c: Setup, s: Link, bytes: seq<byte>, t: Link)
    requires s.server.ServerCopying? && s.headerSent == |HeaderFrame(c)|
    requires s.inbound == StartLeg([], bytes).(pos := |bytes|, held := bytes) && t == Step(c, s, ServerWrite(0, true))
    ensures t == s.(inbound := StartLeg([], bytes).(pos := |bytes|, written := bytes),
                    delivery := s.delivery.(arrived := HeaderFrame(c) + bytes))
  {
    assert HeaderFrame(c)[..|HeaderFrame(c)|] == HeaderFrame(c) && [] + bytes == bytes;
  }

  /** The server has sent the whole stream. */
  predicate AllSent(c: Setup, s: Link, bytes: seq<byte>) {
    && Quietly(s) && s.client.ClientCopying? && s.learned == Some(c.header) && s.preambleSent == |PreambleFor(c, c.header)|
    && s.headerSent == |HeaderFrame(c)| && s.publicClosed
    && s.inbound == StartLeg([], bytes).(pos := |bytes|, written := bytes, ending := AtEof)
    && s.delivery == Leg(HeaderFrame(c) + bytes, |HeaderFrame(c)|, |HeaderFrame(c)|, [], [], [], Running)
  }

  lemma ServerSends(c: Setup, before: seq<Event>, bytes: seq<byte>) returns (events: seq<Event>)
    requires BothCopy(c, Run(c, before), bytes)
    ensures AllSent(c, Run(c, events), bytes)
  {
    RunSnoc(c, before, ServerRead(|bytes|));
    events := before + [ServerRead(|bytes|)];
    ServerReads(c, Run(c, before), bytes, Run(c, events));
    RunSnoc(c, events, ServerWrite(0, true));
    ServerWrites(c, Run(c, events), bytes, Run(c, events + [ServerWrite(0, true)]));
    events := events + [ServerWrite(0, true)];
    RunSnoc(c, events, ServerEof);
    events := events + [ServerEof];
  }

  lemma ClientDelivers(c: Setup, s: Link, bytes: seq<byte>, t: Link)
    requires AllSent(c, s, bytes) && t == Step(c, Step(c, s, ClientRead(|bytes|)), ClientWrite(0, true))
    ensures t == s.(delivery := s.delivery.(pos := |s.delivery.arrived|, written := bytes))
  {
    var k := |HeaderFrame(c)|;
    assert (HeaderFrame(c) + bytes)[k..k + |bytes|] == bytes && [] + bytes == bytes;
  }

  /**
   Whatever a public client sends before it closes - through the router, a stream that
   begins with a handshake - can reach the local service whole: there is a run that ends
   with the PROXY line, if the tunnel asks for it, and then exactly those bytes.
   */
  lemma CanDeliverEverything(c: Setup, bytes: seq<byte>) returns (events: seq<Event>)
    requires c.viaRouter ==> Handshake.ParseHostname(bytes).Some?
    ensures var s := Run(c, events);
            && s.inbound.arrived == bytes && s.delivery.ending.AtEof?
            && Local(c, s) == (if c.proxyProtocol then c.proxyLine(c.header) else []) + bytes
  {
    events := Opening(c, bytes);
    events := HeaderThrough(c, events, bytes);
    events := ServerSends(c, events, bytes);
    var s := Run(c, events);
    RunSnoc2(c, events, ClientRead(|bytes|), ClientWrite(0, true));
    events := events + [ClientRead(|bytes|), ClientWrite(0, true)];
    ClientDelivers(c, s, bytes, Run(c, events));
    RunSnoc(c, events, ClientEof);
    ClientEnds(c, s, bytes, Run(c, events), Run(c, events + [ClientEof]));
    events := events + [ClientEof];
  }

  lemma ClientEnds(c: Setup, s: Link, bytes: seq<byte>, t: Link, u: Link)
    requires AllSent(c, s, bytes) && t == s.(delivery := s.delivery.(pos := |s.delivery.arrived|, written := bytes))
    requires u == Step(c, t, ClientEof)
    ensures u.inbound.arrived == bytes && u.delivery.ending.AtEof?
    ensures Local(c, u) == (if c.proxyProtocol then c.proxyLine(c.header) else []) + bytes
  {
    assert u == t.(delivery := LegEof(t.delivery));
    assert PreambleFor(c, c.header)[..|PreambleFor(c, c.header)|] == PreambleFor(c, c.header);
  }
}
