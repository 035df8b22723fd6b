/**
 Hostname routing: which hostnames and ports tunnels may hold at the same time, and how
 the shared Minecraft listener finds the one tunnel a connection is for. Every handler
 is one step.
 */
module Routing {
  import opened Wrappers
  import opened Streams
  import opened Store
  import Handshake
  import VarInt

  const MAX_HOSTNAME_LEN := 253

  /** No two tunnels hold the same hostname, enabled or not. */
  ghost predicate UniqueHostnames(tunnels: map<Id, Tunnel>) {
    forall i, j :: i in tunnels && j in tunnels && tunnels[i].hostname == tunnels[j].hostname != [] ==> i == j
  }

  ghost predicate Inv(db: Tables) {
    WellFormed(db) && UniqueHostnames(db.tunnels)
  }

  // ---- The settings handler --------------------------------------------------------------------

  datatype Settings = Settings(limit: Option<int>, hostname: seq<byte>, proxyProtocol: bool)

  /** UpdatedUnread: the row was updated and then could not be read back. */
  datatype Reply = Updated | UpdatedUnread | BadLimit | TooLong | Conflict | NoSuchTunnel

  /** What the handler refuses before it touches the row; `check` is the answer of HostnameTaken. */
  function Refusal(req: Settings, check: Option<bool>): Option<Reply> {
    if req.limit.Some? && req.limit.value <= 0 then Some(BadLimit)
    else if |Handshake.StoredForm(req.hostname)| > MAX_HOSTNAME_LEN then Some(TooLong)
    else if Handshake.StoredForm(req.hostname) != [] && check == Some(true) then Some(Conflict)
    else None
  }

  /** The reply while the database answers everything. */
  function Verdict(req: Settings, taken: bool, known: bool): Reply {
    match Refusal(req, Some(taken))
    case Some(reply) => reply
    case None => if known then Updated else NoSuchTunnel
  }

  function ApplyRequest(t: Tunnel, req: Settings): Tunnel {
    ApplySettings(t, req.limit, Handshake.StoredForm(req.hostname), req.proxyProtocol)
  }

  /** The state machine's view: the check answers truthfully, or fails and is then ignored. */
  function UpdateSettings(db: Tables, id: Id, req: Settings, checked: bool): Tables {
    var check := if checked then Some(Taken(db.tunnels, Handshake.StoredForm(req.hostname), id)) else None;
    if id !in db.tunnels || Refusal(req, check).Some? then db
    else db.(tunnels := db.tunnels[id := ApplyRequest(db.tunnels[id], req)])
  }

  /** handleUpdateTunnelSettings. */
  method HandleUpdateTunnelSettings(db: DB, id: Id, req: Settings) returns (reply: Reply, checked: bool)
    modifies db
    ensures reply.Updated? || reply.UpdatedUnread? ==>
              id in old(db.tunnels) && db.State() == UpdateSettings(old(db.State()), id, req, checked)
    ensures reply.Updated? || reply.UpdatedUnread? ==>
              && id in db.tunnels && db.tunnels[id].limit == req.limit && db.tunnels[id].proxyProtocol == req.proxyProtocol
              && db.tunnels[id].hostname == Handshake.StoredForm(req.hostname)
    ensures !reply.Updated? && !reply.UpdatedUnread? ==> db.State() == old(db.State())
    ensures reply.BadLimit? <==> req.limit.Some? && req.limit.value <= 0
    ensures reply.TooLong? <==> !reply.BadLimit? && |Handshake.StoredForm(req.hostname)| > MAX_HOSTNAME_LEN
    ensures reply.Conflict? ==> Taken(old(db.tunnels), Handshake.StoredForm(req.hostname), id)
    ensures db.up ==>
              && !reply.UpdatedUnread?
              && (reply.Conflict? <==>
                    (!reply.BadLimit? && !reply.TooLong? && Handshake.StoredForm(req.hostname) != []
                     && exists i :: i in old(db.tunnels) && i != id
                                    && old(db.tunnels)[i].hostname == Handshake.StoredForm(req.hostname)))
              && (reply.NoSuchTunnel? <==>
                    (!reply.BadLimit? && !reply.TooLong? && !reply.Conflict? && id !in old(db.tunnels)))
    ensures db.up ==>
              && checked
              && reply == Verdict(req, Taken(old(db.tunnels), Handshake.StoredForm(req.hostname), id), id in old(db.tunnels))
    ensures (reply.Updated? || reply.UpdatedUnread?) && checked && Handshake.StoredForm(req.hostname) != [] ==>
              !Taken(old(db.tunnels), Handshake.StoredForm(req.hostname), id)
  {
    checked := true;
    if req.limit.Some? && req.limit.value <= 0 {
      return BadLimit, true;
    }
    var hostname := Handshake.StoredForm(req.hostname);
    if |hostname| > MAX_HOSTNAME_LEN {
      return TooLong, true;
    }
    if hostname != [] {
      var taken := db.HostnameTaken(hostname, id);
      if taken == Some(true) {
        return Conflict, true;
      }
      checked := taken.Some?;
    }
    var ok := db.UpdateTunnelSettings(id, req.limit, hostname, req.proxyProtocol);
    if !ok {
      return NoSuchTunnel, checked;
    }
    var read := db.Exec();
    reply := if read then Updated else UpdatedUnread;
  }

  // ---- The toggle ------------------------------------------------------------------------------

  datatype ToggleReply = Toggled | NoTunnel | Occupied | Failed

  /** handleUpdateTunnel; `busy` are the ports of the tunnel's protocol that cannot be bound. */
  method HandleUpdateTunnel(db: DB, id: Id, enabled: bool, busy: set<int>) returns (reply: ToggleReply)
    modifies db
    ensures db.State() == if reply.Toggled? then SetEnabled(old(db.State()), id, enabled) else old(db.State())
    ensures reply.Toggled? && enabled ==> id in old(db.tunnels)
    ensures reply.Occupied? <==>
              && enabled && !reply.NoTunnel? && id in old(db.tunnels)
              && old(db.tunnels)[id].publicPort != 0 && old(db.tunnels)[id].publicPort in busy
    ensures reply.NoTunnel? ==> enabled
    ensures db.up ==> (reply.NoTunnel? <==> enabled && id !in old(db.tunnels)) && !reply.Failed?
  {
    if enabled {
      var found := db.Exec();
      if !found || id !in db.tunnels {
        return NoTunnel;
      }
      var t := db.tunnels[id];
      if t.publicPort != 0 && t.publicPort in busy {
        return Occupied;
      }
    }
    var ok := db.SetTunnelEnabled(id, enabled);
    reply := if ok then Toggled else Failed;
  }

  // ---- Every handler that changes tunnels ------------------------------------------------------

  datatype Event =
    | CreateClient(id: Id, client: Client)
    | CreateTunnel(id: Id, clientId: Id, name: string, localHost: string, localPort: int, publicPort: int, protocol: string)
    | Update(id: Id, req: Settings, checked: bool)
    | Toggle(id: Id, enabled: bool)
    | AddBytes(id: Id, bytesIn: nat, bytesOut: nat)
    | SetClientLimit(id: Id, limit: Option<int>)
    | DeleteTunnel(id: Id)
    | DeleteClients(ids: set<Id>)       // one machine, or a factory reset

  ghost function Step(db: Tables, e: Event): Tables {
    match e
    case CreateClient(id, c) => if CanInsertClient(db, id, c) then db.(clients := db.clients[id := c]) else db
    case CreateTunnel(id, clientId, name, localHost, localPort, publicPort, protocol) =>
      var t := NewTunnel(clientId, name, localHost, localPort, publicPort, protocol);
      if CanInsertTunnel(db, id, t) then db.(tunnels := db.tunnels[id := t]) else db
    case Update(id, req, checked) => UpdateSettings(db, id, req, checked)
    case Toggle(id, enabled) => SetEnabled(db, id, enabled)
    case AddBytes(id, bytesIn, bytesOut) =>
      if id in db.tunnels && db.tunnels[id].clientId in db.clients then AddTraffic(db, id, bytesIn, bytesOut) else db
    case SetClientLimit(id, limit) => LimitClient(db, id, limit)
    case DeleteTunnel(id) => RemoveTunnel(db, id)
    case DeleteClients(ids) => RemoveClients(db, ids)
  }

  /** handleUpdateClientSettings: the limit must be positive, or none. */
  function LimitClient(db: Tables, id: Id, limit: Option<int>): Tables {
    if id !in db.clients || (limit.Some? && limit.value <= 0) then db
    else db.(clients := db.clients[id := db.clients[id].(limit := limit)])
  }

  ghost function Run(events: seq<Event>): Tables {
    if events == [] then Empty else Step(Run(events[..|events| - 1]), events[|events| - 1])
  }

  // ---- Uniqueness is kept ------------------------------------------------------------------------

  lemma ReplaceRowKeeps(db: Tables, id: Id, t: Tunnel, after: Tables)
    requires Inv(db) && id in db.tunnels && after == db.(tunnels := db.tunnels[id := t])
    requires t.clientId == db.tunnels[id].clientId && t.publicPort == db.tunnels[id].publicPort
    requires t.hostname == [] || !Taken(db.tunnels, t.hostname, id)
    ensures Inv(after)
  {
    assert UniqueHostnames(after.tunnels) by {
      forall i, j | i in after.tunnels && j in after.tunnels && after.tunnels[i].hostname == after.tunnels[j].hostname != []
        ensures i == j
      {}
    }
  }

  lemma SameHostnamesKeep(before: map<Id, Tunnel>, after: map<Id, Tunnel>)
    requires UniqueHostnames(before) && after.Keys <= before.Keys
    requires forall i :: i in after ==> after[i].hostname == before[i].hostname
    ensures UniqueHostnames(after)
  {}

  lemma TrafficKeepsHostnames(db: Tables, id: Id, bytesIn: int, bytesOut: int)
    requires Inv(db) && id in db.tunnels
    ensures Inv(AddTraffic(db, id, bytesIn, bytesOut))
  {
    var after := AddTraffic(db, id, bytesIn, bytesOut);
    AddTrafficKeeps(db, id, bytesIn, bytesOut);
    AddTrafficSameConfig(db, id, bytesIn, bytesOut);
    forall i | i in after.tunnels
      ensures after.tunnels[i].hostname == db.tunnels[i].hostname
    {
      assert Config(after.tunnels[i]) == Config(db.tunnels[i]);
    }
    SameHostnamesKeep(db.tunnels, after.tunnels);
  }

  lemma CreateKeeps(db: Tables, id: Id, t: Tunnel, after: Tables)
    requires Inv(db) && CanInsertTunnel(db, id, t) && t.hostname == [] && after == db.(tunnels := db.tunnels[id := t])
    ensures Inv(after)
  {
    InsertTunnelKeeps(db, id, t);
  }

  /** Exactly when a settings update keeps hostnames distinct: the check answered, or was not needed. */
  lemma UpdateKeepsExactlyIf(db: Tables, id: Id, req: Settings, checked: bool, after: Tables)
    requires Inv(db) && after == UpdateSettings(db, id, req, checked)
    ensures Inv(after) <==>
              || checked
              || id !in db.tunnels
              || Refusal(req, None).Some?
              || Handshake.StoredForm(req.hostname) == []
              || !Taken(db.tunnels, Handshake.StoredForm(req.hostname), id)
  {
    var h := Handshake.StoredForm(req.hostname);
    if after != db {
      var t := ApplyRequest(db.tunnels[id], req);
      if h == [] || !Taken(db.tunnels, h, id) {
        ReplaceRowKeeps(db, id, t, after);
      } else {
        var j :| j in db.tunnels && j != id && db.tunnels[j].hostname == h;
        assert after.tunnels[j].hostname == after.tunnels[id].hostname;
      }
    }
  }

  /** The steps in which HostnameTaken answered if it was asked. */
  predicate Answered(e: Event) {
    e.Update? ==> e.checked
  }

  lemma StepKeeps(db: Tables, e: Event, after: Tables)
    requires Inv(db) && Answered(e) && after == Step(db, e)
    ensures Inv(after)
  {
    match e
    case CreateClient(id, c) => ClientInsertKeeps(db, id, c, after);
    case CreateTunnel(id, clientId, name, localHost, localPort, publicPort, protocol) =>
      if after != db {
        CreateKeeps(db, id, NewTunnel(clientId, name, localHost, localPort, publicPort, protocol), after);
      }
    case Update(id, req, checked) => UpdateKeepsExactlyIf(db, id, req, checked, after);
    case Toggle(id, enabled) =>
      if id in db.tunnels {
        assert Taken(db.tunnels, db.tunnels[id].hostname, id) ==> db.tunnels[id].hostname == [];
        ReplaceRowKeeps(db, id, db.tunnels[id].(enabled := enabled), after);
      }
    case AddBytes(id, bytesIn, bytesOut) => if id in db.tunnels { TrafficKeepsHostnames(db, id, bytesIn, bytesOut); }
    case SetClientLimit(id, limit) => ClientLimitKeeps(db, id, limit, after);
    case DeleteTunnel(id) => RemoveTunnelKeeps(db, id);
    case DeleteClients(ids) => RemoveClientsKeeps(db, ids);
  }

  lemma ClientLimitKeeps(db: Tables, id: Id, limit: Option<int>, after: Tables)
    requires Inv(db) && after == LimitClient(db, id, limit)
    ensures Inv(after)
  {}

  lemma ClientInsertKeeps(db: Tables, id: Id, c: Client, after: Tables)
    requires Inv(db)
    requires after == if CanInsertClient(db, id, c) then db.(clients := db.clients[id := c]) else db
    ensures Inv(after)
  {}

  lemma RowWellFormed(db: Tables, id: Id, t: Tunnel, after: Tables)
    requires WellFormed(db) && id in db.tunnels && after == db.(tunnels := db.tunnels[id := t])
    requires t.clientId == db.tunnels[id].clientId && t.publicPort == db.tunnels[id].publicPort
    ensures WellFormed(after)
  {}

  lemma NewClientWellFormed(db: Tables, id: Id, c: Client, after: Tables)
    requires WellFormed(db) && CanInsertClient(db, id, c) && after == db.(clients := db.clients[id := c])
    ensures WellFormed(after)
  {}

  lemma LimitWellFormed(db: Tables, id: Id, limit: Option<int>, after: Tables)
    requires WellFormed(db) && id in db.clients
    requires after == db.(clients := db.clients[id := db.clients[id].(limit := limit)])
    ensures WellFormed(after)
  {}

  lemma StepWellFormed(db: Tables, e: Event, after: Tables)
    requires WellFormed(db) && after == Step(db, e)
    ensures WellFormed(after)
  {
    match e
    case CreateClient(id, c) => if CanInsertClient(db, id, c) { NewClientWellFormed(db, id, c, after); }
    case SetClientLimit(id, limit) => if after != db { LimitWellFormed(db, id, limit, after); }
    case CreateTunnel(id, clientId, name, localHost, localPort, publicPort, protocol) =>
      if after != db { InsertTunnelKeeps(db, id, NewTunnel(clientId, name, localHost, localPort, publicPort, protocol)); }
    case Update(id, req, checked) => if after != db { RowWellFormed(db, id, ApplyRequest(db.tunnels[id], req), after); }
    case Toggle(id, enabled) => if id in db.tunnels { RowWellFormed(db, id, db.tunnels[id].(enabled := enabled), after); }
    case AddBytes(id, bytesIn, bytesOut) => if id in db.tunnels { AddTrafficKeeps(db, id, bytesIn, bytesOut); }
    case DeleteTunnel(id) => RemoveTunnelKeeps(db, id);
    case DeleteClients(ids) => RemoveClientsKeeps(db, ids);
  }

  /** In every state the handlers can reach nonzero public ports are pairwise distinct, across protocols too. */
  lemma {:induction false} ReachablePorts(events: seq<Event>)
    ensures WellFormed(Run(events))
  {
    if events != [] {
      ReachablePorts(events[..|events| - 1]);
      StepWellFormed(Run(events[..|events| - 1]), events[|events| - 1], Run(events));
    }
  }

  /** If every hostname check that was asked answered, nonempty hostnames are pairwise distinct as well. */
  lemma {:induction false} ReachableUnique(events: seq<Event>)
    requires forall k :: 0 <= k < |events| ==> Answered(events[k])
    ensures Inv(Run(events))
  {
    if events != [] {
      ReachableUnique(events[..|events| - 1]);
      StepKeeps(Run(events[..|events| - 1]), events[|events| - 1], Run(events));
    }
  }

  /** A lookup has at most one match, so which row comes first does not matter. */
  lemma LookupIsDeterministic(events: seq<Event>, hostname: seq<byte>)
    requires forall k :: 0 <= k < |events| ==> Answered(events[k])
    requires hostname != []
    ensures |Matches(Run(events).tunnels, hostname)| <= 1
  {
    ReachableUnique(events);
    UniqueMatch(Run(events).tunnels, hostname);
  }

  lemma UniqueMatch(tunnels: map<Id, Tunnel>, hostname: seq<byte>)
    requires UniqueHostnames(tunnels) && hostname != []
    ensures |Matches(tunnels, hostname)| <= 1
  {
    var found := Matches(tunnels, hostname);
    if found != {} {
      var i :| i in found;
      assert found == {i};
    }
  }

  // ---- When the check fails ---------------------------------------------------------------------

  /**
   A failed HostnameTaken query is taken for "not taken": a run in which two tunnels end
   up with the same hostname, and a lookup with two rows to choose from.
   */
  lemma FailedCheckShadows(host: byte, client: Client)
    requires !Handshake.IsSpace(host)
    ensures Matches(Run(TwoTunnels(client) + BothNamed(host)).tunnels, Handshake.StoredForm([host])) == {Uuid("a"), Uuid("b")}
  {
    TwoTunnelsRun(client);
    var db := Run(TwoTunnels(client));
    var a, b, req := Uuid("a"), Uuid("b"), Settings(None, [host], false);
    OneByteStored(host);
    var mid := UpdateSettings(db, a, req, true);
    assert mid.tunnels == map[a := ApplyRequest(db.tunnels[a], req), b := db.tunnels[b]];
    var last := UpdateSettings(mid, b, req, false);
    assert last.tunnels == map[a := mid.tunnels[a], b := ApplyRequest(mid.tunnels[b], req)];
    RunSnoc(TwoTunnels(client), Update(a, req, true));
    RunSnoc(TwoTunnels(client) + [Update(a, req, true)], Update(b, req, false));
    assert TwoTunnels(client) + [Update(a, req, true)] + [Update(b, req, false)] == TwoTunnels(client) + BothNamed(host);
  }

  function TwoTunnels(client: Client): seq<Event> {
    [CreateClient(Uuid("c"), client), CreateTunnel(Uuid("a"), Uuid("c"), "a", "localhost", 1, 0, "tcp")]
    + [CreateTunnel(Uuid("b"), Uuid("c"), "b", "localhost", 2, 0, "tcp")]
  }

  function BothNamed(host: byte): seq<Event> {
    [Update(Uuid("a"), Settings(None, [host], false), true), Update(Uuid("b"), Settings(None, [host], false), false)]
  }

  lemma TwoTunnelsRun(client: Client)
    ensures var a, b, c := Uuid("a"), Uuid("b"), Uuid("c");
            Run(TwoTunnels(client)).tunnels == map[a := NewTunnel(c, "a", "localhost", 1, 0, "tcp"),
                                                   b := NewTunnel(c, "b", "localhost", 2, 0, "tcp")]
  {
    var a, b, owner := Uuid("a"), Uuid("b"), Uuid("c");
    var e0 := CreateClient(owner, client);
    var e1 := CreateTunnel(a, owner, "a", "localhost", 1, 0, "tcp");
    var e2 := CreateTunnel(b, owner, "b", "localhost", 2, 0, "tcp");
    assert [] + [e0] == [e0] && [e0] + [e1] == [e0, e1];
    RunSnoc([], e0);
    assert Run([e0]).clients == map[owner := client];
    RunSnoc([e0], e1);
    RunSnoc([e0, e1], e2);
  }

  lemma RunSnoc(events: seq<Event>, e: Event)
    ensures Run(events + [e]) == Step(Run(events), e)
  {
    assert (events + [e])[..|events|] == events;
  }

  lemma OneByteStored(host: byte)
    requires !Handshake.IsSpace(host)
    ensures |Handshake.StoredForm([host])| == 1
  {
    assert Handshake.ToLower([host]) == [Handshake.LowerByte(host)];
  }

  // ---- The shared listener -----------------------------------------------------------------------

  predicate Routable(t: Tunnel) {
    t.protocol == "" || t.protocol == "tcp"
  }

  /**
   handleMinecraftConn up to proxyConn: the connection goes to an enabled TCP tunnel whose
   hostname the stream's handshake names, with the whole stream still to be read; it is
   dropped exactly if there is no handshake, a statement fails, nothing matches, or what
   matched is not a TCP tunnel.
   */
  method HandleMinecraftConn(db: DB, conn: Conn) returns (answered: bool, target: Option<Id>, replay: ReplayReader?)
    requires conn.Valid()
    modifies conn
    ensures conn.Valid()
    ensures target.Some? ==>
              && Handshake.ParseHostname(old(conn.Remaining())).Some?
              && target.value in Matches(db.tunnels, Handshake.ParseHostname(old(conn.Remaining())).value)
              && db.tunnels[target.value].enabled
              && db.tunnels[target.value].hostname == Handshake.ParseHostname(old(conn.Remaining())).value
              && (db.tunnels[target.value].protocol == "tcp" || db.tunnels[target.value].protocol == "")
              && replay != null && replay.Valid() && replay.Remaining() == old(conn.Remaining())
    ensures target.None? && answered ==>
              || Handshake.ParseHostname(old(conn.Remaining())).None?
              || Matches(db.tunnels, Handshake.ParseHostname(old(conn.Remaining())).value) == {}
              || (exists i :: i in Matches(db.tunnels, Handshake.ParseHostname(old(conn.Remaining())).value)
                              && db.tunnels[i].protocol != "tcp" && db.tunnels[i].protocol != "")
    ensures db.up ==> answered
  {
    var hostname;
    answered, target := true, None;
    hostname, replay := Handshake.PeekMinecraftHostname(conn);
    if hostname.None? {
      return;
    }
    var row;
    answered, row := db.GetTunnelByHostname(hostname.value);
    if row.None? || !Routable(db.tunnels[row.value]) {
      return;
    }
    target := row;
  }

  /** An empty hostname is never looked up, so a tunnel without one is never routed to. */
  lemma NoHostnameNeverRouted(tunnels: map<Id, Tunnel>, stream: seq<byte>, i: Id)
    requires i in tunnels && tunnels[i].hostname == []
    ensures Handshake.ParseHostname(stream).Some? ==> i !in Matches(tunnels, Handshake.ParseHostname(stream).value)
  {}

  /**
   End to end: once a tunnel has been given a hostname without a NUL or a trailing dot, a
   handshake for any case variant of it - with a trailing dot or NUL-separated metadata or
   neither - is for that tunnel and no other while it is enabled.
   */
  lemma HandshakeFindsTunnel(events: seq<Event>, id: Id, input: seq<byte>, typed: seq<byte>, dot: bool,
                             metadata: Option<seq<byte>>, version: VarInt.int32, port: Handshake.uint16,
                             next: VarInt.int32, tail: seq<byte>)
    requires forall k :: 0 <= k < |events| ==> Answered(events[k])
    requires id in Run(events).tunnels && Run(events).tunnels[id].enabled
    requires Run(events).tunnels[id].hostname == Handshake.StoredForm(input) != []
    requires Handshake.NUL !in Handshake.StoredForm(input)
    requires Handshake.StoredForm(input)[|Handshake.StoredForm(input)| - 1] != Handshake.DOT
    requires Handshake.SameUpToCase(typed, Handshake.StoredForm(input))
    requires |typed| + (if dot then 1 else 0) + (if metadata.Some? then 1 + |metadata.value| else 0)
             <= Handshake.MAX_ADDRESS_LEN
    ensures var address := typed + (if dot then [Handshake.DOT] else [])
                           + (if metadata.Some? then [Handshake.NUL] + metadata.value else []);
            var hostname := Handshake.ParseHostname(Handshake.BuildHandshake(version, address, port, next) + tail);
            hostname.Some? && Matches(Run(events).tunnels, hostname.value) == {id}
  {
    Handshake.HandshakeReachesStoredForm(input, typed, dot, metadata, version, port, next, tail);
    ReachableUnique(events);
    OnlyMatch(Run(events).tunnels, Handshake.StoredForm(input), id);
  }

  lemma OnlyMatch(tunnels: map<Id, Tunnel>, hostname: seq<byte>, id: Id)
    requires UniqueHostnames(tunnels) && hostname != []
    requires id in tunnels && tunnels[id].enabled && tunnels[id].hostname == hostname
    ensures Matches(tunnels, hostname) == {id}
  {
    assert forall i :: i in Matches(tunnels, hostname) ==> i == id;
  }
}
