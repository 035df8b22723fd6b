/**
 UDP over one multiplexed stream: many public senders share it, and the machine gives each
 sender a local socket of its own. The steps below interleave freely: the server's two
 loops, the machine's packet loop, one reader per socket, the reaper, and the services
 at either end. Datagrams may be lost at every hop.
 */
module UdpMux {
  import opened Wrappers
  import opened Streams

  datatype Addr = Addr(text: string)

  /** A local socket: the sender whose packet it was dialled for, and which of that sender's it is. */
  datatype Sock = Sock(sender: Addr, serial: nat)

  datatype Datagram = Datagram(addr: Addr, data: seq<byte>)

  datatype Reply = Reply(sock: Sock, data: seq<byte>)

  /** A packet on its way to the local service. `tag`, its position among the arrivals, is not on the wire. */
  datatype Packet = Packet(addr: Addr, data: seq<byte>, tag: nat)

  datatype Delivery = Delivery(sock: Sock, data: seq<byte>, tag: nat)

  /**
   A packet on its way back. The socket and the position among the replies are not on the
   wire; `out` says that the server sent it out on the public socket.
   */
  datatype Frame = Frame(addr: Addr, data: seq<byte>, sock: Sock, tag: nat, out: bool)

  /** The sessions of the machine's packet loop. */
  datatype Table = Table(sessions: map<Addr, Sock>, next: nat, open: set<Sock>)

  datatype Mux = Mux(
    arrived: seq<Datagram>,         // what the public socket handed to the server, in order
    addrs: set<Addr>,               // senders the server has seen on this stream
    holding: Option<Packet>,        // read, not yet written to the stream
    broken: bool,                   // the server's write to the stream failed
    up: seq<Packet>,                // in the stream, towards the machine
    table: Table,
    writing: Option<Delivery>,      // the machine is about to write this to this socket
    delivered: seq<Delivery>,       // what local sockets sent to the local service
    replies: seq<Reply>,            // what the local service sent to local sockets
    readers: map<Sock, Addr>,       // running reader goroutines and the sender each has captured
    cursor: map<Sock, nat>,         // replies a reader is past
    held: map<Sock, Frame>,         // read by a reader, not yet written to the stream
    down: seq<Frame>,               // in the stream, towards the server
    torn: bool,                     // a frame towards the server was cut off; it reads no further
    taken: seq<Frame>)              // frames the server has read

  const Boot := Mux([], {}, None, false, [], Table(map[], 0, {}), None, [], [], map[], map[], map[], [], false, [])

  datatype Event =
    | Arrive(addr: Addr, data: seq<byte>)
    | SendUp(ok: bool, landed: bool)
    | TakeUp(dialOk: bool)
    | WriteLocal(ok: bool)
    | Reap(idle: set<Addr>)
    | ReplyTo(sock: Sock, data: seq<byte>)
    | ReadReply(sock: Sock, i: nat)          // the next reply to the socket the kernel did not drop
    | SendDown(sock: Sock, ok: bool, landed: bool, cut: bool)
    | StopReader(sock: Sock)                 // its read deadline passed, or its socket was closed
    | TakeDown(ok: bool)

  // ---- The table -------------------------------------------------------------------------------------

  /** The socket for a sender: the one in the table, or a new one if dialling works. */
  function Lookup(t: Table, addr: Addr, dialOk: bool): (Table, Option<Sock>) {
    if addr in t.sessions then (t, Some(t.sessions[addr]))
    else if !dialOk then (t, None)
    else
      var sock := Sock(addr, t.next);
      (Table(t.sessions[addr := sock], t.next + 1, t.open + {sock}), Some(sock))
  }

  function Reaped(t: Table, idle: set<Addr>): Table {
    Table(t.sessions - idle, t.next, t.open - set a | a in idle && a in t.sessions :: t.sessions[a])
  }

  /** The packet loop and the reaper, on the machine. */
  class Sessions {
    var sessions: map<Addr, Sock>
    var next: nat
    var open: set<Sock>
    var lastActive: map<Sock, int>

    ghost function State(): Table
      reads this
    {
      Table(sessions, next, open)
    }

    ghost predicate Valid()
      reads this
    {
      && (forall a :: a in sessions ==> sessions[a] in lastActive && sessions[a] in open)
      && (forall a :: a in sessions ==> sessions[a].sender == a)
      && (forall k :: k in open ==> k.serial < next)
    }

    constructor ()
      ensures Valid() && State() == Table(map[], 0, {})
    {
      sessions, next, open, lastActive := map[], 0, {}, map[];
    }

    /** The packet loop under sessionsMu: find the sender's socket or dial one; `dialOk` says whether dialling works. */
    method Route(addr: Addr, dialOk: bool) returns (r: Option<Sock>)
      requires Valid()
      modifies this
      ensures Valid() && (State(), r) == Lookup(old(State()), addr, dialOk)
      ensures r.Some? ==> r.value.sender == addr && r.value in open
      ensures addr in old(sessions) ==> r == Some(old(sessions)[addr]) && sessions == old(sessions)
      ensures addr !in old(sessions) && dialOk ==>
                r.Some? && r.value !in old(open) && sessions == old(sessions)[addr := r.value]
      ensures addr !in old(sessions) && !dialOk ==> r.None? && sessions == old(sessions)
    {
      if addr in sessions {
        return Some(sessions[addr]);
      }
      if !dialOk {
        return None;
      }
      var sock := Sock(addr, next);
      sessions, open, next := sessions[addr := sock], open + {sock}, next + 1;
      lastActive := lastActive[sock := 0];
      r := Some(sock);
    }

    method Touch(sock: Sock, now: int)
      requires Valid()
      modifies this`lastActive
      ensures Valid() && State() == old(State()) && lastActive == old(lastActive)[sock := now]
    {
      lastActive := lastActive[sock := now];
    }

    /** The packet loop up to the write: the sender's socket, marked as active. */
    method Take(addr: Addr, dialOk: bool, now: int) returns (r: Option<Sock>)
      requires Valid()
      modifies this
      ensures Valid() && (State(), r) == Lookup(old(State()), addr, dialOk)
      ensures r.Some? ==> r.value.sender == addr && r.value in open && r.value in lastActive && lastActive[r.value] == now
      ensures addr in old(sessions) ==> r == Some(old(sessions)[addr]) && sessions == old(sessions)
      ensures addr !in old(sessions) && dialOk ==> r.Some? && sessions == old(sessions)[addr := r.value]
      ensures addr !in old(sessions) && !dialOk ==> r.None? && sessions == old(sessions)
    {
      r := Route(addr, dialOk);
      if r.Some? {
        Touch(r.value, now);
      }
    }

    /** One tick of the reaper: exactly the senders idle since before the cutoff lose their socket. */
    method ReapIdle(cutoff: int)
      requires Valid()
      modifies this
      ensures Valid() && State() == Reaped(old(State()), Idle(old(sessions), old(lastActive), cutoff))
      ensures forall a :: a in old(sessions) ==>
                if old(lastActive)[old(sessions)[a]] >= cutoff then a in sessions && sessions[a] == old(sessions)[a]
                else a !in sessions && old(sessions)[a] !in open
      ensures sessions.Keys <= old(sessions).Keys && open <= old(open)
    {
      ghost var before := State();
      ReapLoop(cutoff);
      ReapedMeans(before, lastActive, cutoff, State());
    }

    /** The loop under sessionsMu. */
    method ReapLoop(cutoff: int)
      requires Valid()
      modifies this
      ensures Valid() && State() == Reaped(old(State()), Idle(old(sessions), old(lastActive), cutoff))
      ensures lastActive == old(lastActive)
    {
      ghost var before := State();
      ghost var idle := Idle(sessions, lastActive, cutoff);
      var rest := sessions.Keys;
      ReapingStarts(before, idle - rest);
      while rest != {}
        invariant Valid() && lastActive == old(lastActive) && rest <= sessions.Keys
        invariant forall a :: a in rest ==> a in before.sessions && sessions[a] == before.sessions[a]
        invariant State() == Reaped(before, idle - rest)
        decreases |rest|
      {
        var addr :| addr in rest;
        assert addr in idle <==> lastActive[sessions[addr]] < cutoff;
        ReapOne(cutoff, before, idle, rest, addr);
        rest := rest - {addr};
      }
      assert idle - rest == idle;
    }

    method ReapOne(cutoff: int, ghost before: Table, ghost idle: set<Addr>, ghost rest: set<Addr>, addr: Addr)
      requires Valid() && addr in rest && rest <= sessions.Keys && State() == Reaped(before, idle - rest)
      requires addr in idle <==> lastActive[sessions[addr]] < cutoff
      modifies this`sessions, this`open
      ensures Valid() && State() == Reaped(before, idle - (rest - {addr}))
      ensures rest - {addr} <= sessions.Keys && forall a :: a in rest - {addr} ==> sessions[a] == old(sessions)[a]
    {
      ReapingStep(before, idle, rest, addr);
      if lastActive[sessions[addr]] < cutoff {
        open := open - {sessions[addr]};
        sessions := sessions - {addr};
      }
    }
  }

  function Idle(sessions: map<Addr, Sock>, lastActive: map<Sock, int>, cutoff: int): set<Addr> {
    set a | a in sessions && sessions[a] in lastActive && lastActive[sessions[a]] < cutoff
  }

  lemma ReapedMeans(t: Table, lastActive: map<Sock, int>, cutoff: int, after: Table)
    requires forall a :: a in t.sessions ==> t.sessions[a] in lastActive && t.sessions[a].sender == a
    requires after == Reaped(t, Idle(t.sessions, lastActive, cutoff))
    ensures forall a :: a in t.sessions ==>
              if lastActive[t.sessions[a]] >= cutoff then a in after.sessions && after.sessions[a] == t.sessions[a]
              else a !in after.sessions && t.sessions[a] !in after.open
    ensures after.sessions.Keys <= t.sessions.Keys && after.open <= t.open
  {}

  lemma ReapingStarts(t: Table, none: set<Addr>)
    requires none == {}
    ensures Reaped(t, none) == t
  {
    assert t.sessions - none == t.sessions;
  }

  lemma ReapingStep(t: Table, idle: set<Addr>, rest: set<Addr>, addr: Addr)
    requires addr in rest
    ensures addr in t.sessions && addr in idle ==>
              Reaped(t, idle - (rest - {addr})) == Table(Reaped(t, idle - rest).sessions - {addr}, t.next,
                                                         Reaped(t, idle - rest).open - {t.sessions[addr]})
    ensures addr !in idle ==> idle - (rest - {addr}) == idle - rest
  {
    if addr in t.sessions && addr in idle {
      assert idle - (rest - {addr}) == (idle - rest) + {addr};
      assert t.sessions - ((idle - rest) + {addr}) == (t.sessions - (idle - rest)) - {addr};
    }
  }

  // ---- Steps towards the machine ----------------------------------------------------------------------

  function StepUp(s: Mux, e: Event): Mux {
    match e
    case Arrive(addr, data) =>
      if s.broken || s.holding.Some? then s
      else s.(arrived := s.arrived + [Datagram(addr, data)], addrs := s.addrs + {addr},
              holding := Some(Packet(addr, data, |s.arrived|)))
    case SendUp(ok, landed) =>
      if s.broken || s.holding.None? then s
      else s.(holding := None, broken := !ok, up := if ok || landed then s.up + [s.holding.value] else s.up)
    case TakeUp(dialOk) =>
      if s.up == [] || s.writing.Some? then s
      else
        var p := s.up[0];
        var (table, sock) := Lookup(s.table, p.addr, dialOk);
        s.(up := s.up[1..], table := table,
           readers := if sock.Some? && p.addr !in s.table.sessions then s.readers[sock.value := p.addr] else s.readers,
           writing := if sock.Some? then Some(Delivery(sock.value, p.data, p.tag)) else None)
    case WriteLocal(ok) =>
      if s.writing.None? then s
      else s.(writing := None,
              delivered := if ok && s.writing.value.sock in s.table.open then s.delivered + [s.writing.value] else s.delivered)
    case Reap(idle) => s.(table := Reaped(s.table, idle))
    case _ => s
  }

  // ---- Steps back ----------------------------------------------------------------------------------------

  function Cursor(s: Mux, sock: Sock): nat {
    if sock in s.cursor then s.cursor[sock] else 0
  }

  function StepDown(s: Mux, e: Event): Mux {
    match e
    case ReplyTo(sock, data) =>
      if sock in s.table.open then s.(replies := s.replies + [Reply(sock, data)]) else s
    case ReadReply(sock, i) =>
      if sock in s.readers && sock in s.table.open && sock !in s.held
         && Cursor(s, sock) <= i < |s.replies| && s.replies[i].sock == sock
      then s.(cursor := s.cursor[sock := i + 1], held := s.held[sock := Frame(s.readers[sock], s.replies[i].data, sock, i, false)])
      else s
    case SendDown(sock, ok, landed, cut) =>
      if sock !in s.held then s
      else s.(held := s.held - {sock},
              down := if (ok || landed) && !s.torn then s.down + [s.held[sock]] else s.down,
              torn := s.torn || (!ok && !landed && cut),
              readers := if ok then s.readers else s.readers - {sock})
    case StopReader(sock) => if sock in s.held then s else s.(readers := s.readers - {sock})
    case TakeDown(ok) =>
      if s.down == [] then s
      else s.(down := s.down[1..], taken := s.taken + [s.down[0].(out := ok && s.down[0].addr in s.addrs)])
    case _ => s
  }

  function Step(s: Mux, e: Event): Mux {
    StepDown(StepUp(s, e), e)
  }

  function Run(events: seq<Event>): Mux {
    if events == [] then Boot else Step(Run(events[..|events| - 1]), events[|events| - 1])
  }

  // ---- What holds of the way up ----------------------------------------------------------------------------

  /** A packet, or a delivery, is what its sender sent. */
  ghost predicate Truthful(arrived: seq<Datagram>, addr: Addr, data: seq<byte>, tag: nat) {
    tag < |arrived| && arrived[tag] == Datagram(addr, data)
  }

  /** Positions before which the stream, and the machine's hand, only hold earlier arrivals. */
  function Back(s: Mux): nat {
    if s.holding.Some? then s.holding.value.tag else |s.arrived|
  }

  function Front(s: Mux): nat {
    if s.up != [] then s.up[0].tag else Back(s)
  }

  function Hand(s: Mux): nat {
    if s.writing.Some? then s.writing.value.tag else Front(s)
  }

  ghost predicate Arrivals(s: Mux) {
    && (s.holding.Some? ==> Truthful(s.arrived, s.holding.value.addr, s.holding.value.data, s.holding.value.tag))
    && (forall k :: 0 <= k < |s.up| ==> Truthful(s.arrived, s.up[k].addr, s.up[k].data, s.up[k].tag))
    && (s.writing.Some? ==> Truthful(s.arrived, s.writing.value.sock.sender, s.writing.value.data, s.writing.value.tag))
    && (forall k :: 0 <= k < |s.delivered| ==>
          Truthful(s.arrived, s.delivered[k].sock.sender, s.delivered[k].data, s.delivered[k].tag))
  }

  ghost predicate Ordered(s: Mux) {
    && Hand(s) <= Front(s) <= Back(s) <= |s.arrived|
    && (s.holding.Some? ==> Back(s) < |s.arrived|)
    && (s.writing.Some? ==> Hand(s) < Front(s))
    && (forall i, j :: 0 <= i < j < |s.up| ==> s.up[i].tag < s.up[j].tag)
    && (forall i :: 0 <= i < |s.up| ==> s.up[i].tag < Back(s))
    && (forall i, j :: 0 <= i < j < |s.delivered| ==> s.delivered[i].tag < s.delivered[j].tag)
    && (forall i :: 0 <= i < |s.delivered| ==> s.delivered[i].tag < Hand(s))
  }

  /** Every sender named anywhere has been seen, every socket is under its own sender, every reader has captured it. */
  ghost predicate Owned(s: Mux) {
    && (forall k :: 0 <= k < |s.arrived| ==> s.arrived[k].addr in s.addrs)
    && (forall a :: a in s.table.sessions ==> s.table.sessions[a].sender == a)
    && (forall k :: k in s.readers ==> s.readers[k] == k.sender && k.sender in s.addrs)
  }

  ghost predicate UpInv(s: Mux) {
    Arrivals(s) && Ordered(s) && Owned(s)
  }

  lemma ArriveKeeps(s: Mux, addr: Addr, data: seq<byte>, t: Mux)
    requires UpInv(s) && t == StepUp(s, Arrive(addr, data))
    ensures UpInv(t)
  {
    ArriveArrivals(s, addr, data, t);
    ArriveOrdered(s, addr, data, t);
    ArriveOwned(s, addr, data, t);
  }

  lemma ArriveOrdered(s: Mux, addr: Addr, data: seq<byte>, t: Mux)
    requires Ordered(s) && t == StepUp(s, Arrive(addr, data))
    ensures Ordered(t)
  {}

  lemma ArriveOwned(s: Mux, addr: Addr, data: seq<byte>, t: Mux)
    requires Owned(s) && t == StepUp(s, Arrive(addr, data))
    ensures Owned(t)
  {}

  lemma ArriveArrivals(s: Mux, addr: Addr, data: seq<byte>, t: Mux)
    requires Arrivals(s) && t == StepUp(s, Arrive(addr, data))
    ensures Arrivals(t)
  {}

  lemma SendUpKeeps(s: Mux, ok: bool, landed: bool, t: Mux)
    requires UpInv(s) && t == StepUp(s, SendUp(ok, landed))
    ensures UpInv(t)
  {}

  lemma TakeUpKeeps(s: Mux, dialOk: bool, t: Mux)
    requires UpInv(s) && t == StepUp(s, TakeUp(dialOk))
    ensures UpInv(t)
  {
    TakeUpArrivals(s, dialOk, t);
    TakeUpOrdered(s, dialOk, t);
    TakeUpOwned(s, dialOk, t);
  }

  lemma TakeUpArrivals(s: Mux, dialOk: bool, t: Mux)
    requires Arrivals(s) && Owned(s) && t == StepUp(s, TakeUp(dialOk))
    ensures Arrivals(t)
  {}

  lemma TakeUpOrdered(s: Mux, dialOk: bool, t: Mux)
    requires Ordered(s) && t == StepUp(s, TakeUp(dialOk))
    ensures Ordered(t)
  {}

  lemma TakeUpOwned(s: Mux, dialOk: bool, t: Mux)
    requires Arrivals(s) && Owned(s) && t == StepUp(s, TakeUp(dialOk))
    ensures Owned(t)
  {
    if s.up != [] {
      assert Truthful(s.arrived, s.up[0].addr, s.up[0].data, s.up[0].tag);
    }
  }

  lemma WriteLocalKeeps(s: Mux, ok: bool, t: Mux)
    requires UpInv(s) && t == StepUp(s, WriteLocal(ok))
    ensures UpInv(t)
  {}

  lemma ReapKeeps(s: Mux, idle: set<Addr>, t: Mux)
    requires UpInv(s) && t == StepUp(s, Reap(idle))
    ensures UpInv(t)
  {}

  lemma UpKeeps(s: Mux, e: Event, t: Mux)
    requires UpInv(s) && t == StepUp(s, e)
    ensures UpInv(t)
  {
    match e
    case Arrive(addr, data) => ArriveKeeps(s, addr, data, t);
    case SendUp(ok, landed) => SendUpKeeps(s, ok, landed, t);
    case TakeUp(dialOk) => TakeUpKeeps(s, dialOk, t);
    case WriteLocal(ok) => WriteLocalKeeps(s, ok, t);
    case Reap(idle) => ReapKeeps(s, idle, t);
    case _ =>
  }

  // ---- What holds of the way back --------------------------------------------------------------------------

  /** A frame carries a reply of the local service to a socket of the sender it is addressed to. */
  ghost predicate Genuine(s: Mux, f: Frame) {
    && f.addr == f.sock.sender && f.addr in s.addrs
    && f.tag < |s.replies| && s.replies[f.tag] == Reply(f.sock, f.data)
  }

  ghost predicate AllGenuine(s: Mux) {
    && (forall k :: 0 <= k < |s.taken| ==> Genuine(s, s.taken[k]))
    && (forall k :: 0 <= k < |s.down| ==> Genuine(s, s.down[k]))
    && (forall k :: k in s.held ==> s.held[k].sock == k && Genuine(s, s.held[k]))
  }

  /** One socket's replies stay in order, and behind what its reader has yet to read. */
  ghost predicate InOrder(frames: seq<Frame>, sock: Sock) {
    forall i, j :: 0 <= i < j < |frames| && frames[i].sock == frames[j].sock == sock ==> frames[i].tag < frames[j].tag
  }

  ghost predicate Before(frames: seq<Frame>, sock: Sock, bound: nat) {
    forall i :: 0 <= i < |frames| && frames[i].sock == sock ==> frames[i].tag < bound
  }

  /** The frame a socket's reader holds comes behind those in the stream and before what it will read. */
  function Bound(s: Mux, sock: Sock): nat {
    if sock in s.held then s.held[sock].tag else Cursor(s, sock)
  }

  ghost predicate SocketInv(s: Mux, sock: Sock) {
    && InOrder(s.taken + s.down, sock)
    && Before(s.taken + s.down, sock, Bound(s, sock))
    && (sock in s.held ==> s.held[sock].sock == sock && s.held[sock].tag < Cursor(s, sock))
  }

  lemma GenuineKeeps(s: Mux, e: Event, t: Mux)
    requires Owned(s) && AllGenuine(s) && t == StepDown(s, e)
    ensures AllGenuine(t)
  {
    match e
    case ReplyTo(sock, data) =>
    case ReadReply(sock, i) => ReadReplyGenuine(s, sock, i, t);
    case SendDown(sock, ok, landed, cut) =>
    case TakeDown(ok) => TakeDownGenuine(s, ok, t);
    case _ =>
  }

  lemma ReadReplyGenuine(s: Mux, sock: Sock, i: nat, t: Mux)
    requires Owned(s) && AllGenuine(s) && t == StepDown(s, ReadReply(sock, i))
    ensures AllGenuine(t)
  {}

  lemma TakeDownGenuine(s: Mux, ok: bool, t: Mux)
    requires AllGenuine(s) && t == StepDown(s, TakeDown(ok))
    ensures AllGenuine(t)
  {}

  lemma UpKeepsGenuine(s: Mux, e: Event, t: Mux)
    requires AllGenuine(s) && t == StepUp(s, e)
    ensures AllGenuine(t)
  {}

  /** The way back touches nothing of the way up but the readers, which it can only stop. */
  lemma DownLeavesUp(s: Mux, e: Event, t: Mux)
    requires t == StepDown(s, e)
    ensures t.arrived == s.arrived && t.addrs == s.addrs && t.holding == s.holding && t.up == s.up
    ensures t.table == s.table && t.writing == s.writing && t.delivered == s.delivered
    ensures forall k :: k in t.readers ==> k in s.readers && t.readers[k] == s.readers[k]
  {}

  lemma DownKeepsUp(s: Mux, e: Event, t: Mux)
    requires UpInv(s) && t == StepDown(s, e)
    ensures UpInv(t)
  {
    DownLeavesUp(s, e, t);
  }

  lemma TakeDownKeeps(s: Mux, ok: bool, t: Mux, sock: Sock)
    requires SocketInv(s, sock) && t == StepDown(s, TakeDown(ok))
    ensures SocketInv(t, sock)
  {
    if s.down != [] {
      assert forall k :: 0 <= k < |s.taken + s.down| ==>
        (t.taken + t.down)[k].sock == (s.taken + s.down)[k].sock && (t.taken + t.down)[k].tag == (s.taken + s.down)[k].tag;
    }
  }

  lemma SendDownKeeps(s: Mux, from: Sock, ok: bool, landed: bool, cut: bool, t: Mux, sock: Sock)
    requires SocketInv(s, sock) && SocketInv(s, from) && t == StepDown(s, SendDown(from, ok, landed, cut))
    ensures SocketInv(t, sock)
  {
    if from in s.held {
      if t.down != s.down {
        assert t.taken + t.down == (s.taken + s.down) + [s.held[from]];
      }
    }
  }

  lemma ReadReplyKeeps(s: Mux, from: Sock, i: nat, t: Mux, sock: Sock)
    requires SocketInv(s, sock) && t == StepDown(s, ReadReply(from, i))
    ensures SocketInv(t, sock)
  {}

  lemma SocketKeeps(s: Mux, e: Event, t: Mux, sock: Sock)
    requires SocketInv(s, sock) && (e.SendDown? ==> SocketInv(s, e.sock)) && t == StepDown(s, e)
    ensures SocketInv(t, sock)
  {
    match e
    case ReadReply(from, i) => ReadReplyKeeps(s, from, i, t, sock);
    case SendDown(from, ok, landed, cut) => SendDownKeeps(s, from, ok, landed, cut, t, sock);
    case TakeDown(ok) => TakeDownKeeps(s, ok, t, sock);
    case _ =>
  }

  // ---- Results over every interleaving ----------------------------------------------------------------------

  lemma {:induction false} RunKeeps(events: seq<Event>)
    ensures UpInv(Run(events)) && AllGenuine(Run(events))
  {
    if events != [] {
      var s, e := Run(events[..|events| - 1]), events[|events| - 1];
      RunKeeps(events[..|events| - 1]);
      UpKeeps(s, e, StepUp(s, e));
      UpKeepsGenuine(s, e, StepUp(s, e));
      DownKeepsUp(StepUp(s, e), e, Run(events));
      GenuineKeeps(StepUp(s, e), e, Run(events));
    }
  }

  lemma UpLeavesSockets(s: Mux, e: Event, t: Mux, sock: Sock)
    requires SocketInv(s, sock) && t == StepUp(s, e)
    ensures SocketInv(t, sock)
  {
    UpLeavesDown(s, e, t);
  }

  lemma UpLeavesDown(s: Mux, e: Event, t: Mux)
    requires t == StepUp(s, e)
    ensures t.taken == s.taken && t.down == s.down && t.held == s.held && t.cursor == s.cursor
  {}

  lemma {:induction false} SocketRun(events: seq<Event>, sock: Sock)
    ensures SocketInv(Run(events), sock)
  {
    if events != [] {
      var s, e := Run(events[..|events| - 1]), events[|events| - 1];
      SocketRun(events[..|events| - 1], sock);
      UpLeavesSockets(s, e, StepUp(s, e), sock);
      if e.SendDown? {
        SocketRun(events[..|events| - 1], e.sock);
        UpLeavesSockets(s, e, StepUp(s, e), e.sock);
      }
      SocketKeeps(StepUp(s, e), e, Run(events), sock);
    }
  }

  /**
   What local sockets send to the local service is, in order and without repetition, some
   of what arrived from the public side, each datagram on a socket of its own sender.
   */
  lemma DeliveredInOrder(events: seq<Event>, i: nat, j: nat)
    requires i < |Run(events).delivered| && j < |Run(events).delivered|
    ensures var s := Run(events);
            var d := s.delivered[i];
            && d.tag < |s.arrived| && s.arrived[d.tag] == Datagram(d.sock.sender, d.data)
            && (i < j ==> d.tag < s.delivered[j].tag)
  {
    RunKeeps(events);
    var s := Run(events);
    assert Truthful(s.arrived, s.delivered[i].sock.sender, s.delivered[i].data, s.delivered[i].tag);
  }

  /**
   Every datagram the server sends to a public address is byte for byte one the local
   service sent to a socket dialled for that address, none is sent twice, and those of one
   socket go out in the order the service sent them.
   */
  lemma NoCrossWiring(events: seq<Event>, i: nat, j: nat)
    requires i < |Run(events).taken| && j < |Run(events).taken| && Run(events).taken[i].out
    ensures var s := Run(events);
            var f := s.taken[i];
            && f.tag < |s.replies| && s.replies[f.tag] == Reply(f.sock, f.data) && f.sock.sender == f.addr
            && (i < j && s.taken[j].sock == f.sock ==> f.tag < s.taken[j].tag)
            && (i != j ==> s.taken[j].tag != f.tag)
  {
    RunKeeps(events);
    var s := Run(events);
    var f := s.taken[i];
    SocketRun(events, f.sock);
    assert Genuine(s, f) && Genuine(s, s.taken[j]);
    assert (s.taken + s.down)[i] == f && (s.taken + s.down)[j] == s.taken[j];
  }

  /** No reply is dropped because the server does not know whom it is for. */
  lemma RepliesHaveKnownSenders(events: seq<Event>, ok: bool)
    requires Run(events).down != []
    ensures var t := StepDown(Run(events), TakeDown(ok));
            t.taken[|t.taken| - 1].out <==> ok
  {
    RunKeeps(events);
    assert Genuine(Run(events), Run(events).down[0]);
  }

  /** Two senders never share a socket, and a reader only ever answers its own sender. */
  lemma SocketsAreDedicated(events: seq<Event>, a: Addr, b: Addr, sock: Sock)
    requires var s := Run(events);
             a in s.table.sessions && b in s.table.sessions && (sock == s.table.sessions[a] == s.table.sessions[b])
    ensures a == b == sock.sender
    ensures sock in Run(events).readers ==> Run(events).readers[sock] == a
  {
    RunKeeps(events);
  }

  // ---- What gets through -------------------------------------------------------------------------------------

  /** Every socket in the table is open. */
  ghost predicate AllOpen(t: Table) {
    && (forall a :: a in t.sessions ==> t.sessions[a].sender == a && t.sessions[a] in t.open)
    && (forall k :: k in t.open ==> k.serial < t.next)
  }

  lemma AllOpenStep(s: Mux, e: Event, t: Mux)
    requires AllOpen(s.table) && t == Step(s, e)
    ensures AllOpen(t.table)
  {
    DownLeavesUp(StepUp(s, e), e, t);
    match e
    case TakeUp(dialOk) =>
    case Reap(idle) =>
    case _ =>
  }

  lemma {:induction false} RunAllOpen(events: seq<Event>)
    ensures AllOpen(Run(events).table)
  {
    if events != [] {
      RunAllOpen(events[..|events| - 1]);
      AllOpenStep(Run(events[..|events| - 1]), events[|events| - 1], Run(events));
    }
  }

  /**
   The packet at the head of the stream is delivered, byte for byte, if nothing fails: on its
   sender's socket if there is one, which stays the sender's, and otherwise on a new one,
   which becomes it.
   */
  lemma NextIsDelivered(events: seq<Event>)
    requires Run(events).up != [] && Run(events).writing.None?
    ensures var s := Run(events);
            var p := s.up[0];
            var t := Step(Step(s, TakeUp(true)), WriteLocal(true));
            && p.addr in t.table.sessions
            && t.delivered == s.delivered + [Delivery(t.table.sessions[p.addr], p.data, p.tag)]
            && (p.addr in s.table.sessions ==> t.table == s.table)
            && (p.addr !in s.table.sessions ==> t.table.sessions[p.addr] !in s.table.open)
            && t.up == s.up[1..] && t.writing.None?
  {
    RunAllOpen(events);
  }

  /** A packet whose socket was reaped in the meantime, or whose write fails, is lost. */
  lemma OtherwiseLost(s: Mux, ok: bool)
    requires s.writing.Some? && (!ok || s.writing.value.sock !in s.table.open)
    ensures var t := Step(s, WriteLocal(ok)); t.delivered == s.delivered && t.writing.None?
  {}

  /** A datagram that arrives while nothing is under way reaches the local service, if nothing fails. */
  lemma ArrivalIsDelivered(events: seq<Event>, addr: Addr, data: seq<byte>)
    requires var s := Run(events); !s.broken && s.holding.None? && s.up == [] && s.writing.None?
    ensures var s := Run(events);
            var t := Run(events + [Arrive(addr, data), SendUp(true, true), TakeUp(true), WriteLocal(true)]);
            && |t.delivered| == |s.delivered| + 1 && t.delivered[..|s.delivered|] == s.delivered
            && t.delivered[|s.delivered|].data == data && t.delivered[|s.delivered|].sock.sender == addr
            && t.arrived == s.arrived + [Datagram(addr, data)]
  {
    var s := Run(events);
    var front := events + [Arrive(addr, data)] + [SendUp(true, true)];
    RunSnoc(events, Arrive(addr, data));
    RunSnoc(events + [Arrive(addr, data)], SendUp(true, true));
    ArrivalIsSent(s, addr, data, Run(front));
    NextIsDelivered(front);
    RunSnoc(front, TakeUp(true));
    RunSnoc(front + [TakeUp(true)], WriteLocal(true));
    RunAllOpen(front + [TakeUp(true)] + [WriteLocal(true)]);
    assert front + [TakeUp(true)] + [WriteLocal(true)]
        == events + [Arrive(addr, data), SendUp(true, true), TakeUp(true), WriteLocal(true)];
  }

  lemma ArrivalIsSent(s: Mux, addr: Addr, data: seq<byte>, t: Mux)
    requires !s.broken && s.holding.None? && s.up == [] && t == Step(Step(s, Arrive(addr, data)), SendUp(true, true))
    ensures t == s.(arrived := s.arrived + [Datagram(addr, data)], addrs := s.addrs + {addr}, up := [Packet(addr, data, |s.arrived|)])
  {}

  lemma RunSnoc(events: seq<Event>, e: Event)
    ensures Run(events + [e]) == Step(Run(events), e)
  {
    assert (events + [e])[..|events|] == events;
  }

  /** A reply to a socket whose reader is waiting goes out to the socket's sender, byte for byte, if nothing fails. */
  lemma ReplyIsSent(events: seq<Event>, sock: Sock, data: seq<byte>, t: Mux)
    requires var s := Run(events);
             && sock in s.readers && sock in s.table.open && sock !in s.held && !s.torn && s.down == []
             && t == Step(Step(Step(Step(s, ReplyTo(sock, data)), ReadReply(sock, |s.replies|)),
                                    SendDown(sock, true, true, false)), TakeDown(true))
    ensures var s := Run(events);
            t.taken == s.taken + [Frame(sock.sender, data, sock, |s.replies|, true)]
  {
    RunKeeps(events);
    SocketRun(events, sock);
    var s := Run(events);
    RunCursor(events, sock);
    var s1 := Step(s, ReplyTo(sock, data));
    assert s1 == s.(replies := s.replies + [Reply(sock, data)]);
    var s2 := Step(s1, ReadReply(sock, |s.replies|));
    var f := Frame(sock.sender, data, sock, |s.replies|, false);
    assert s2 == s1.(cursor := s.cursor[sock := |s.replies| + 1], held := s.held[sock := f]);
    var s3 := Step(s2, SendDown(sock, true, true, false));
    assert s3.down == [f] && s3.taken == s.taken && s3.addrs == s.addrs;
  }

  /** After a frame was cut off the server reads none of what the readers still write. */
  lemma CutSilences(s: Mux, sock: Sock, other: Sock, ok: bool, landed: bool, cut: bool)
    requires sock in s.held
    ensures var t := StepDown(s, SendDown(sock, false, false, true));
            t.torn && t.down == s.down && StepDown(t, SendDown(other, ok, landed, cut)).down == t.down
            && StepDown(t, SendDown(other, ok, landed, cut)).torn
  {}

  /** A reader is never past replies that are still to come. */
  lemma {:induction false} RunCursor(events: seq<Event>, sock: Sock)
    ensures Cursor(Run(events), sock) <= |Run(events).replies|
  {
    if events != [] {
      RunCursor(events[..|events| - 1], sock);
      var s, e := Run(events[..|events| - 1]), events[|events| - 1];
      CursorStep(StepUp(s, e), e, Run(events), sock);
    }
  }

  lemma CursorStep(s: Mux, e: Event, t: Mux, sock: Sock)
    requires Cursor(s, sock) <= |s.replies| && t == StepDown(s, e)
    ensures Cursor(t, sock) <= |t.replies|
  {}
}
