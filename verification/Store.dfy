/**
 The SQLite data layer. Tables are maps from primary keys to rows; UNIQUE and foreign
 keys hold in every state, deletes cascade, and a transaction either happens whole or
 not at all. Any statement may fail. Hashing is injective, ids and tokens are supplied.
 */
module Store {
  import opened Wrappers
  import opened Streams

  /** A UUID: primary keys of clients and tunnels. */
  datatype Id = Uuid(text: string)

  /** The SHA-256 of a text, as something that determines the text. */
  datatype Hash = Sha256(text: string)

  datatype Client = Client(name: string, tokenHash: Hash, lastSeen: bool, limit: Option<int>)

  /** publicPort 0 is SQL NULL: no dedicated port. An empty hostname is no hostname. */
  datatype Tunnel = Tunnel(
    clientId: Id, name: string, localHost: string, localPort: int, publicPort: nat, protocol: string,
    enabled: bool, limit: Option<int>, hostname: seq<byte>, proxyProtocol: bool, bytesIn: int, bytesOut: int)

  datatype Sample = Sample(tunnelId: Id, bytesIn: int, bytesOut: int)

  datatype Code = Code(clientId: Id, token: string, expiresAt: int)

  datatype Tables = Tables(
    clients: map<Id, Client>,
    tunnels: map<Id, Tunnel>,
    samples: seq<Sample>,
    codes: map<Hash, Code>,
    revoked: set<Hash>)

  const Empty := Tables(map[], map[], [], map[], {})

  // ---- Constraints --------------------------------------------------------------------------

  ghost predicate UniquePorts(tunnels: map<Id, Tunnel>) {
    forall i, j :: i in tunnels && j in tunnels && tunnels[i].publicPort == tunnels[j].publicPort != 0 ==> i == j
  }

  ghost predicate UniqueClients(clients: map<Id, Client>) {
    && (forall i, j :: i in clients && j in clients && clients[i].name == clients[j].name ==> i == j)
    && (forall i, j :: i in clients && j in clients && clients[i].tokenHash == clients[j].tokenHash ==> i == j)
  }

  ghost predicate ForeignKeys(db: Tables) {
    && (forall i :: i in db.tunnels ==> db.tunnels[i].clientId in db.clients)
    && (forall k :: 0 <= k < |db.samples| ==> db.samples[k].tunnelId in db.tunnels)
    && (forall h :: h in db.codes ==> db.codes[h].clientId in db.clients)
  }

  ghost predicate WellFormed(db: Tables) {
    UniquePorts(db.tunnels) && UniqueClients(db.clients) && ForeignKeys(db)
  }

  // ---- Rows and their sums --------------------------------------------------------------------

  function Total(t: Tunnel): int {
    t.bytesIn + t.bytesOut
  }

  ghost function SumOver(tunnels: map<Id, Tunnel>, ids: set<Id>): int
    requires ids <= tunnels.Keys
  {
    if ids == {} then 0
    else
      var id :| id in ids;
      Total(tunnels[id]) + SumOver(tunnels, ids - {id})
  }

  function Owned(tunnels: map<Id, Tunnel>, clientId: Id): (ids: set<Id>)
    ensures ids <= tunnels.Keys
  {
    set id | id in tunnels && tunnels[id].clientId == clientId
  }

  /** SUM(bytes_in_total + bytes_out_total) over a client's tunnels. */
  ghost function ClientTotal(tunnels: map<Id, Tunnel>, clientId: Id): int {
    SumOver(tunnels, Owned(tunnels, clientId))
  }

  /** The sum does not depend on the order rows are added up in. */
  lemma {:induction false} SumRemove(tunnels: map<Id, Tunnel>, ids: set<Id>, id: Id)
    requires ids <= tunnels.Keys && id in ids
    ensures SumOver(tunnels, ids) == Total(tunnels[id]) + SumOver(tunnels, ids - {id})
    decreases |ids|
  {
    var first :| first in ids && SumOver(tunnels, ids) == Total(tunnels[first]) + SumOver(tunnels, ids - {first});
    if first != id {
      SumRemove(tunnels, ids - {first}, id);
      SumRemove(tunnels, ids - {id}, first);
      assert ids - {first} - {id} == ids - {id} - {first};
    }
  }

  /** Sums only see the totals of the rows they range over. */
  lemma {:induction false} SumSame(before: map<Id, Tunnel>, after: map<Id, Tunnel>, ids: set<Id>)
    requires ids <= before.Keys && ids <= after.Keys
    requires forall i :: i in ids ==> Total(before[i]) == Total(after[i])
    ensures SumOver(before, ids) == SumOver(after, ids)
    decreases |ids|
  {
    if ids != {} {
      var id :| id in ids;
      SumRemove(before, ids, id);
      SumRemove(after, ids, id);
      SumSame(before, after, ids - {id});
    }
  }

  // ---- What the statements do --------------------------------------------------------------------

  function SamplesOf(samples: seq<Sample>, tunnels: set<Id>): (kept: seq<Sample>)
    ensures forall k :: 0 <= k < |kept| ==> kept[k].tunnelId in tunnels && kept[k] in samples
  {
    if samples == [] then []
    else
      var rest := SamplesOf(samples[..|samples| - 1], tunnels);
      var last := samples[|samples| - 1];
      if last.tunnelId in tunnels then rest + [last] else rest
  }

  /** DELETE FROM tunnels WHERE id = ?, with the samples it cascades to. */
  function RemoveTunnel(db: Tables, id: Id): Tables {
    if id !in db.tunnels then db
    else
      var tunnels := db.tunnels - {id};
      db.(tunnels := tunnels, samples := SamplesOf(db.samples, tunnels.Keys))
  }

  /** DELETE FROM clients for a set of ids, with the tunnels, codes and samples it cascades to. */
  function RemoveClients(db: Tables, ids: set<Id>): Tables {
    var tunnels := map i | i in db.tunnels && db.tunnels[i].clientId !in ids :: db.tunnels[i];
    db.(clients := db.clients - ids,
        tunnels := tunnels,
        samples := SamplesOf(db.samples, tunnels.Keys),
        codes := map h | h in db.codes && db.codes[h].clientId !in ids :: db.codes[h])
  }

  predicate PortFree(tunnels: map<Id, Tunnel>, port: nat) {
    port == 0 || forall i :: i in tunnels ==> tunnels[i].publicPort != port
  }

  /** Whether INSERT INTO tunnels violates no constraint. */
  predicate CanInsertTunnel(db: Tables, id: Id, t: Tunnel) {
    id !in db.tunnels && t.clientId in db.clients && PortFree(db.tunnels, t.publicPort)
  }

  predicate CanInsertClient(db: Tables, id: Id, c: Client) {
    && id !in db.clients
    && (forall i :: i in db.clients ==> db.clients[i].name != c.name && db.clients[i].tokenHash != c.tokenHash)
  }

  predicate HashFree(clients: map<Id, Client>, hash: Hash) {
    forall i :: i in clients ==> clients[i].tokenHash != hash
  }

  /** The rows GetTunnelByHostname selects. */
  function Matches(tunnels: map<Id, Tunnel>, hostname: seq<byte>): set<Id> {
    set i | i in tunnels && tunnels[i].hostname == hostname && tunnels[i].enabled
  }

  /** Whether another tunnel, enabled or not, holds the hostname. */
  predicate Taken(tunnels: map<Id, Tunnel>, hostname: seq<byte>, exclude: Id) {
    exists i :: i in tunnels && i != exclude && tunnels[i].hostname == hostname
  }

  function SetEnabled(db: Tables, id: Id, enabled: bool): Tables {
    if id in db.tunnels then db.(tunnels := db.tunnels[id := db.tunnels[id].(enabled := enabled)]) else db
  }

  /** UPDATE tunnels SET the three columns of the settings form. */
  function ApplySettings(t: Tunnel, limit: Option<int>, hostname: seq<byte>, proxyProtocol: bool): Tunnel {
    t.(limit := limit, hostname := hostname, proxyProtocol := proxyProtocol)
  }

  const ENROLL_CODE_TTL := 900  // seconds

  /** What ExchangeEnrollmentCode finds: None for an unknown, used or expired code. */
  function Redeem(codes: map<Hash, Code>, code: string, now: int): Option<Code> {
    if Sha256(code) in codes && now <= codes[Sha256(code)].expiresAt then Some(codes[Sha256(code)]) else None
  }

  /** How an exchange can go: refused, consumed without an answer, or answered. */
  datatype Redemption = Refused | Lost | Redeemed(row: Code)

  function TokenHashes(clients: map<Id, Client>, ids: set<Id>): set<Hash> {
    set i | i in ids && i in clients :: clients[i].tokenHash
  }

  function NewTunnel(clientId: Id, name: string, localHost: string, localPort: int, publicPort: int, protocol: string): Tunnel {
    Tunnel(clientId, name, localHost, localPort, if publicPort > 0 then publicPort else 0,
           if protocol == "" then "tcp" else protocol, true, None, [], false, 0, 0)
  }

  function Disable(tunnels: map<Id, Tunnel>, clientId: Id): (r: map<Id, Tunnel>)
    ensures r.Keys == tunnels.Keys
  {
    map i | i in tunnels :: if tunnels[i].clientId == clientId then tunnels[i].(enabled := false) else tunnels[i]
  }

  function Reaches(total: int, limit: Option<int>): bool {
    limit.Some? && total >= limit.value
  }

  /** The counters grow and a sample is kept. */
  function RecordTraffic(db: Tables, id: Id, bytesIn: int, bytesOut: int): Tables
    requires id in db.tunnels
  {
    var t := db.tunnels[id];
    db.(tunnels := db.tunnels[id := t.(bytesIn := t.bytesIn + bytesIn, bytesOut := t.bytesOut + bytesOut)],
        samples := db.samples + [Sample(id, bytesIn, bytesOut)])
  }

  /** A tunnel at its own limit is disabled. */
  function EnforceTunnelLimit(tunnels: map<Id, Tunnel>, id: Id): (r: map<Id, Tunnel>)
    requires id in tunnels
    ensures r.Keys == tunnels.Keys
  {
    if Reaches(Total(tunnels[id]), tunnels[id].limit) then tunnels[id := tunnels[id].(enabled := false)] else tunnels
  }

  /** All tunnels of a client at its combined limit are disabled. */
  ghost function EnforceClientLimit(tunnels: map<Id, Tunnel>, clientId: Id, limit: Option<int>): (r: map<Id, Tunnel>)
    ensures r.Keys == tunnels.Keys
  {
    if Reaches(ClientTotal(tunnels, clientId), limit) then Disable(tunnels, clientId) else tunnels
  }

  /** The committed effect of AddTunnelTraffic on a tunnel that exists. */
  ghost function AddTraffic(db: Tables, id: Id, bytesIn: int, bytesOut: int): Tables
    requires id in db.tunnels && db.tunnels[id].clientId in db.clients
  {
    var recorded := RecordTraffic(db, id, bytesIn, bytesOut);
    var clientId := db.tunnels[id].clientId;
    recorded.(tunnels := EnforceClientLimit(EnforceTunnelLimit(recorded.tunnels, id), clientId, db.clients[clientId].limit))
  }

  // ---- Every statement keeps the constraints ----------------------------------------------------------

  lemma RemoveTunnelKeeps(db: Tables, id: Id)
    requires WellFormed(db)
    ensures WellFormed(RemoveTunnel(db, id))
  {}

  lemma RemoveClientsKeeps(db: Tables, ids: set<Id>)
    requires WellFormed(db)
    ensures WellFormed(RemoveClients(db, ids))
  {}

  /** Exactly the samples of the tunnels that are kept are kept, each as often as it was there. */
  lemma {:induction false} SamplesKept(samples: seq<Sample>, tunnels: set<Id>, x: Sample)
    ensures multiset(SamplesOf(samples, tunnels))[x] == if x.tunnelId in tunnels then multiset(samples)[x] else 0
  {
    if samples != [] {
      var front, last := samples[..|samples| - 1], samples[|samples| - 1];
      SamplesKept(front, tunnels, x);
      assert samples == front + [last];
    }
  }

  /** Deleting clients takes their rows and codes along and leaves everyone else's as they were. */
  lemma RemoveClientsExactly(db: Tables, ids: set<Id>, i: Id, h: Hash)
    ensures var after := RemoveClients(db, ids);
            && (i in after.clients <==> i in db.clients && i !in ids)
            && (i in after.clients ==> after.clients[i] == db.clients[i])
            && (i in after.tunnels <==> i in db.tunnels && db.tunnels[i].clientId !in ids)
            && (i in after.tunnels ==> after.tunnels[i] == db.tunnels[i])
            && (h in after.codes <==> h in db.codes && db.codes[h].clientId !in ids)
            && (h in after.codes ==> after.codes[h] == db.codes[h])
            && after.revoked == db.revoked
  {}

  lemma RemoveTunnelExactly(db: Tables, id: Id, i: Id)
    ensures var after := RemoveTunnel(db, id);
            && (i in after.tunnels <==> i in db.tunnels && i != id)
            && (i in after.tunnels ==> after.tunnels[i] == db.tunnels[i])
            && after.clients == db.clients && after.codes == db.codes && after.revoked == db.revoked
  {}

  /** A code is good for fifteen minutes. */
  lemma CodeLifetime(codes: map<Hash, Code>, code: string, id: Id, token: string, now: int, later: int)
    ensures var row := Code(id, token, now + ENROLL_CODE_TTL);
            Redeem(codes[Sha256(code) := row], code, later) == if later - now <= 15 * 60 then Some(row) else None
  {}

  /** What is left of a row without its counters and without whether it is enabled. */
  function Config(t: Tunnel): Tunnel {
    t.(enabled := false, bytesIn := 0, bytesOut := 0)
  }

  ghost predicate SameConfig(before: map<Id, Tunnel>, after: map<Id, Tunnel>) {
    before.Keys == after.Keys && forall i :: i in before ==> Config(before[i]) == Config(after[i])
  }

  /** Whether AddTraffic finds the client at its combined limit. */
  ghost predicate ClientOver(db: Tables, id: Id, bytesIn: int, bytesOut: int)
    requires id in db.tunnels && db.tunnels[id].clientId in db.clients
  {
    var clientId := db.tunnels[id].clientId;
    Reaches(ClientTotal(EnforceTunnelLimit(RecordTraffic(db, id, bytesIn, bytesOut).tunnels, id), clientId),
            db.clients[clientId].limit)
  }

  /** AddTraffic row by row. */
  lemma AddTrafficRow(db: Tables, id: Id, bytesIn: int, bytesOut: int, i: Id)
    requires id in db.tunnels && db.tunnels[id].clientId in db.clients && i in db.tunnels
    ensures var after := AddTraffic(db, id, bytesIn, bytesOut).tunnels;
            && i in after
            && Config(after[i]) == Config(db.tunnels[i])
            && after[i].bytesIn == db.tunnels[i].bytesIn + (if i == id then bytesIn else 0)
            && after[i].bytesOut == db.tunnels[i].bytesOut + (if i == id then bytesOut else 0)
            && (after[i].enabled <==>
                  && db.tunnels[i].enabled
                  && !(i == id && Reaches(Total(after[i]), after[i].limit))
                  && !(after[i].clientId == db.tunnels[id].clientId && ClientOver(db, id, bytesIn, bytesOut)))
  {
    var t1 := RecordTraffic(db, id, bytesIn, bytesOut).tunnels;
    RecordedRow(db, id, bytesIn, bytesOut, i);
    LimitedRow(t1, id, i);
  }

  lemma RecordedRow(db: Tables, id: Id, bytesIn: int, bytesOut: int, i: Id)
    requires id in db.tunnels && i in db.tunnels
    ensures RecordTraffic(db, id, bytesIn, bytesOut).tunnels[i]
         == if i != id then db.tunnels[i]
            else db.tunnels[i].(bytesIn := db.tunnels[i].bytesIn + bytesIn, bytesOut := db.tunnels[i].bytesOut + bytesOut)
  {}

  lemma LimitedRow(tunnels: map<Id, Tunnel>, id: Id, i: Id)
    requires id in tunnels && i in tunnels
    ensures EnforceTunnelLimit(tunnels, id)[i]
         == if i == id && Reaches(Total(tunnels[i]), tunnels[i].limit) then tunnels[i].(enabled := false) else tunnels[i]
  {}

  lemma AddTrafficSameConfig(db: Tables, id: Id, bytesIn: int, bytesOut: int)
    requires id in db.tunnels && db.tunnels[id].clientId in db.clients
    ensures SameConfig(db.tunnels, AddTraffic(db, id, bytesIn, bytesOut).tunnels)
  {
    forall i | i in db.tunnels
      ensures Config(AddTraffic(db, id, bytesIn, bytesOut).tunnels[i]) == Config(db.tunnels[i])
    {
      AddTrafficRow(db, id, bytesIn, bytesOut, i);
    }
  }

  lemma SameConfigKeeps(db: Tables, tunnels: map<Id, Tunnel>)
    requires WellFormed(db) && SameConfig(db.tunnels, tunnels)
    ensures WellFormed(db.(tunnels := tunnels))
  {
    forall i | i in tunnels
      ensures tunnels[i].clientId == db.tunnels[i].clientId && tunnels[i].publicPort == db.tunnels[i].publicPort
    {
      assert Config(tunnels[i]) == Config(db.tunnels[i]);
    }
  }

  lemma AddTrafficKeeps(db: Tables, id: Id, bytesIn: int, bytesOut: int)
    requires WellFormed(db) && id in db.tunnels
    ensures WellFormed(AddTraffic(db, id, bytesIn, bytesOut))
  {
    AddTrafficSameConfig(db, id, bytesIn, bytesOut);
    TrafficRowsKeep(db, id, bytesIn, bytesOut, AddTraffic(db, id, bytesIn, bytesOut));
  }

  lemma TrafficRowsKeep(db: Tables, id: Id, bytesIn: int, bytesOut: int, after: Tables)
    requires WellFormed(db) && id in db.tunnels && SameConfig(db.tunnels, after.tunnels)
    requires after == db.(tunnels := after.tunnels, samples := db.samples + [Sample(id, bytesIn, bytesOut)])
    ensures WellFormed(after)
  {
    SameConfigKeeps(db, after.tunnels);
    SampleKeeps(db.(tunnels := after.tunnels), Sample(id, bytesIn, bytesOut));
  }

  lemma SampleKeeps(db: Tables, sample: Sample)
    requires WellFormed(db) && sample.tunnelId in db.tunnels
    ensures WellFormed(db.(samples := db.samples + [sample]))
  {}

  lemma InsertTunnelKeeps(db: Tables, id: Id, t: Tunnel)
    requires WellFormed(db) && CanInsertTunnel(db, id, t)
    ensures WellFormed(db.(tunnels := db.tunnels[id := t]))
  {}

  // ---- The database object -----------------------------------------------------------------------------

  class DB {
    var clients: map<Id, Client>
    var tunnels: map<Id, Tunnel>
    var samples: seq<Sample>
    var codes: map<Hash, Code>
    var revoked: set<Hash>

    const up: bool  // whether the engine carries out every statement; if not, any of them may fail

    ghost function State(): (db: Tables)
      reads this
    {
      Tables(clients, tunnels, samples, codes, revoked)
    }

    constructor (up: bool)
      ensures State() == Empty && this.up == up
    {
      this.up := up;
      clients, tunnels, samples, codes, revoked := map[], map[], [], map[], {};
    }

    /** Whether the engine carries a statement out. */
    method Exec() returns (ok: bool)
      ensures up ==> ok
    {
      ok := *;
      ok := ok || up;
    }

    /** SELECT SUM(...) over a client's tunnels, row by row in any order. */
    method SumClient(clientId: Id) returns (total: int)
      ensures total == ClientTotal(tunnels, clientId)
    {
      var rest := Owned(tunnels, clientId);
      total := 0;
      while rest != {}
        invariant rest <= tunnels.Keys
        invariant total + SumOver(tunnels, rest) == ClientTotal(tunnels, clientId)
        decreases |rest|
      {
        var id :| id in rest;
        SumRemove(tunnels, rest, id);
        total := total + Total(tunnels[id]);
        rest := rest - {id};
      }
    }

    /** AddTunnelTraffic: one transaction, rolled back whole on any error. */
    method AddTunnelTraffic(id: Id, bytesIn: int, bytesOut: int) returns (ok: bool)
      modifies this
      ensures ok ==>
                && id in old(tunnels) && old(tunnels)[id].clientId in old(clients)
                && State() == AddTraffic(old(State()), id, bytesIn, bytesOut)
      ensures !ok ==> State() == old(State())
      ensures up ==> (ok <==> id in old(tunnels) && old(tunnels)[id].clientId in old(clients))
    {
      var saved, savedSamples := tunnels, samples;
      ok := AddTrafficStatements(id, bytesIn, bytesOut);
      if !ok {
        tunnels, samples := saved, savedSamples;
      }
    }

    /** The statements between Begin and Commit; on an error the tables are left half-way. */
    method AddTrafficStatements(id: Id, bytesIn: int, bytesOut: int) returns (ok: bool)
      modifies this`tunnels, this`samples
      ensures ok ==>
                && id in old(tunnels) && old(tunnels)[id].clientId in old(clients)
                && State() == AddTraffic(old(State()), id, bytesIn, bytesOut)
      ensures up ==> (ok <==> id in old(tunnels) && old(tunnels)[id].clientId in old(clients))
    {
      ok := RecordStatements(id, bytesIn, bytesOut);
      if !ok {
        return;
      }
      ok := Exec();
      if !ok || tunnels[id].clientId !in clients {
        return false;
      }
      var t := tunnels[id];
      if t.limit.Some? && Total(t) >= t.limit.value {
        tunnels := tunnels[id := t.(enabled := false)];
      }
      var limit := clients[t.clientId].limit;
      if limit.Some? {
        var total := SumClient(t.clientId);
        if total >= limit.value {
          tunnels := Disable(tunnels, t.clientId);
        }
      }
      ok := Exec();
    }

    /** UPDATE the counters, INSERT the sample: the sample's foreign key refuses a tunnel that is gone. */
    method RecordStatements(id: Id, bytesIn: int, bytesOut: int) returns (ok: bool)
      modifies this`tunnels, this`samples
      ensures ok ==> id in old(tunnels) && State() == RecordTraffic(old(State()), id, bytesIn, bytesOut)
      ensures up ==> (ok <==> id in old(tunnels))
    {
      ok := Exec();
      if !ok {
        return;
      }
      if id in tunnels {
        var t := tunnels[id];
        tunnels := tunnels[id := t.(bytesIn := t.bytesIn + bytesIn, bytesOut := t.bytesOut + bytesOut)];
      }
      ok := Exec();
      if !ok || id !in tunnels {
        return false;
      }
      samples := samples + [Sample(id, bytesIn, bytesOut)];
    }

    /** CreateTunnel: a refused insert changes nothing, an accepted one adds exactly this row. */
    method CreateTunnel(id: Id, clientId: Id, name: string, localHost: string, localPort: int, publicPort: int,
                        protocol: string) returns (ok: bool)
      modifies this
      ensures ok ==>
                && CanInsertTunnel(old(State()), id, NewTunnel(clientId, name, localHost, localPort, publicPort, protocol))
                && State() == old(State()).(tunnels :=
                     old(tunnels)[id := NewTunnel(clientId, name, localHost, localPort, publicPort, protocol)])
      ensures !ok ==> State() == old(State())
      ensures up ==> (ok <==> CanInsertTunnel(old(State()), id, NewTunnel(clientId, name, localHost, localPort, publicPort, protocol)))
    {
      var t := NewTunnel(clientId, name, localHost, localPort, publicPort, protocol);
      var done := Exec();
      if !done || id in tunnels || clientId !in clients || !PortFree(tunnels, t.publicPort) {
        return false;
      }
      tunnels := tunnels[id := t];
      ok := true;
    }

    method DeleteTunnel(id: Id) returns (ok: bool)
      modifies this
      ensures State() == if ok then RemoveTunnel(old(State()), id) else old(State())
      ensures up ==> ok
    {
      ok := Exec();
      if ok && id in tunnels {
        tunnels := tunnels - {id};
        samples := SamplesOf(samples, tunnels.Keys);
      }
    }

    method SetTunnelEnabled(id: Id, enabled: bool) returns (ok: bool)
      modifies this
      ensures State() == if ok then SetEnabled(old(State()), id, enabled) else old(State())
      ensures up ==> ok
      ensures ok && id in old(tunnels) ==> id in tunnels && tunnels[id] == old(tunnels)[id].(enabled := enabled)
      ensures forall i :: i in old(tunnels) && i != id ==> i in tunnels && tunnels[i] == old(tunnels)[i]
    {
      ok := Exec();
      if ok && id in tunnels {
        tunnels := tunnels[id := tunnels[id].(enabled := enabled)];
      }
    }

    /** HostnameTaken; None stands for a failed query. */
    method HostnameTaken(hostname: seq<byte>, exclude: Id) returns (taken: Option<bool>)
      ensures taken.Some? ==> (taken.value <==> Taken(tunnels, hostname, exclude))
      ensures up ==> taken.Some?
    {
      var rows := set i | i in tunnels && tunnels[i].hostname == hostname && i != exclude;
      assert Taken(tunnels, hostname, exclude) ==> rows != {} by {
        if Taken(tunnels, hostname, exclude) {
          var i :| i in tunnels && i != exclude && tunnels[i].hostname == hostname;
          assert i in rows;
        }
      }
      var done := Exec();
      taken := if done then Some(rows != {}) else None;
    }

    /** UpdateTunnelSettings: an error if the statement fails or there is no such row. */
    method UpdateTunnelSettings(id: Id, limit: Option<int>, hostname: seq<byte>, proxyProtocol: bool) returns (ok: bool)
      modifies this
      ensures ok ==>
                && id in old(tunnels)
                && State() == old(State()).(tunnels :=
                     old(tunnels)[id := ApplySettings(old(tunnels)[id], limit, hostname, proxyProtocol)])
      ensures !ok ==> State() == old(State())
      ensures up ==> (ok <==> id in old(tunnels))
      ensures ok ==>
                && id in tunnels && tunnels[id].limit == limit && tunnels[id].hostname == hostname
                && tunnels[id].proxyProtocol == proxyProtocol
                && tunnels[id].(limit := old(tunnels)[id].limit, hostname := old(tunnels)[id].hostname,
                                proxyProtocol := old(tunnels)[id].proxyProtocol) == old(tunnels)[id]
    {
      ok := Exec();
      if !ok || id !in tunnels {
        return false;
      }
      tunnels := tunnels[id := ApplySettings(tunnels[id], limit, hostname, proxyProtocol)];
    }

    /** GetTunnelByHostname: whichever matching row comes first; ok is false when the query fails. */
    method GetTunnelByHostname(hostname: seq<byte>) returns (ok: bool, r: Option<Id>)
      ensures r.Some? ==> r.value in Matches(tunnels, hostname)
      ensures ok && r.None? ==> Matches(tunnels, hostname) == {}
      ensures up ==> ok
    {
      r := None;
      ok := Exec();
      var rows := Matches(tunnels, hostname);
      if ok && rows != {} {
        var i :| i in rows;
        r := Some(i);
      }
    }

    /** CreateClient, with the id and the token it generates. */
    method CreateClient(id: Id, name: string, token: string) returns (ok: bool)
      modifies this
      ensures ok ==>
                && CanInsertClient(old(State()), id, Client(name, Sha256(token), false, None))
                && State() == old(State()).(clients := old(clients)[id := Client(name, Sha256(token), false, None)])
      ensures !ok ==> State() == old(State())
      ensures up ==> (ok <==> CanInsertClient(old(State()), id, Client(name, Sha256(token), false, None)))
    {
      var c := Client(name, Sha256(token), false, None);
      var done := Exec();
      if !done || !CanInsertClient(Tables(clients, tunnels, samples, codes, revoked), id, c) {
        return false;
      }
      clients := clients[id := c];
      ok := true;
    }

    /** RotateClientToken: the old token is worth nothing from here on. */
    method RotateClientToken(id: Id, token: string) returns (ok: bool)
      modifies this
      ensures ok ==>
                && id in old(clients) && HashFree(old(clients), Sha256(token))
                && State() == old(State()).(clients := old(clients)[id := old(clients)[id].(tokenHash := Sha256(token))])
      ensures !ok ==> State() == old(State())
      ensures up ==> (ok <==> id in old(clients) && HashFree(old(clients), Sha256(token)))
    {
      var done := Exec();
      if !done || id !in clients || !HashFree(clients, Sha256(token)) {
        return false;
      }
      clients := clients[id := clients[id].(tokenHash := Sha256(token))];
      ok := true;
    }

    /** GetClientByTokenHash; None also if the query fails. */
    method GetClientByTokenHash(hash: Hash) returns (answered: bool, r: Option<Id>)
      ensures r.Some? ==> r.value in clients && clients[r.value].tokenHash == hash
      ensures answered && r.None? ==> HashFree(clients, hash)
      ensures up ==> answered
    {
      r := None;
      answered := Exec();
      var rows := set i | i in clients && clients[i].tokenHash == hash;
      if answered && rows != {} {
        var i :| i in rows;
        r := Some(i);
      }
      assert r.None? && answered ==> forall i :: i in clients && clients[i].tokenHash == hash ==> i in rows;
    }

    /** IsTokenRevoked; a failed query counts as "not revoked". */
    method IsTokenRevoked(hash: Hash) returns (answered: bool, yes: bool)
      ensures yes ==> hash in revoked
      ensures answered ==> (yes <==> hash in revoked)
      ensures up ==> answered
    {
      answered := Exec();
      yes := answered && hash in revoked;
    }

    method UpdateClientLastSeen(id: Id) returns (ok: bool)
      modifies this
      ensures State() == if ok && id in old(clients)
                         then old(State()).(clients := old(clients)[id := old(clients)[id].(lastSeen := true)])
                         else old(State())
      ensures up ==> ok
    {
      ok := Exec();
      if ok && id in clients {
        clients := clients[id := clients[id].(lastSeen := true)];
      }
    }

    /** CreateEnrollmentCode, with the code it generates. */
    method CreateEnrollmentCode(id: Id, token: string, code: string, now: int) returns (ok: bool)
      modifies this
      ensures ok ==>
                && id in old(clients) && Sha256(code) !in old(codes)
                && State() == old(State()).(codes := old(codes)[Sha256(code) := Code(id, token, now + ENROLL_CODE_TTL)])
      ensures !ok ==> State() == old(State())
      ensures up ==> (ok <==> id in old(clients) && Sha256(code) !in old(codes))
    {
      var done := Exec();
      if !done || id !in clients || Sha256(code) in codes {
        return false;
      }
      codes := codes[Sha256(code) := Code(id, token, now + ENROLL_CODE_TTL)];
      ok := true;
    }

    /**
     ExchangeEnrollmentCode. The deletion is committed before the client's row is read, so
     a good code is gone either way, and a failing read loses what it was good for.
     */
    method ExchangeEnrollmentCode(code: string, now: int) returns (r: Redemption)
      modifies this
      ensures r.Refused? ==> State() == old(State())
      ensures r.Redeemed? ==> Redeem(old(codes), code, now) == Some(r.row)
      ensures !r.Refused? ==>
                && Redeem(old(codes), code, now).Some?
                && State() == old(State()).(codes := old(codes) - {Sha256(code)})
      ensures up && Redeem(old(codes), code, now).Some? ==>
                r == if Redeem(old(codes), code, now).value.clientId in old(clients)
                     then Redeemed(Redeem(old(codes), code, now).value) else Lost
      ensures Redeem(old(codes), code, now).None? ==> r.Refused?
      ensures r.Redeemed? ==> Sha256(code) in old(codes) && old(codes)[Sha256(code)] == r.row && now <= r.row.expiresAt
      ensures up && Sha256(code) in old(codes) && now <= old(codes)[Sha256(code)].expiresAt ==> !r.Refused?
      ensures Sha256(code) in old(codes) && now > old(codes)[Sha256(code)].expiresAt ==> r.Refused?
    {
      if Sha256(code) !in codes {
        return Refused;
      }
      var row := codes[Sha256(code)];
      if now > row.expiresAt {
        return Refused;
      }
      var ok := Exec();
      if !ok {
        return Refused;
      }
      codes := codes - {Sha256(code)};
      var found := Exec();
      r := if found && row.clientId in clients then Redeemed(row) else Lost;
    }

    /** DELETE FROM clients for some rows, and what the foreign keys cascade it to. */
    method DeleteClientRows(ids: set<Id>)
      modifies this`clients, this`tunnels, this`samples, this`codes
      ensures State() == RemoveClients(old(State()), ids)
    {
      clients := clients - ids;
      tunnels := map i | i in tunnels && tunnels[i].clientId !in ids :: tunnels[i];
      samples := SamplesOf(samples, tunnels.Keys);
      codes := map h | h in codes && codes[h].clientId !in ids :: codes[h];
    }

    /** DeleteClient: the row, everything it cascades to, and the revocation, in one transaction. */
    method DeleteClient(id: Id) returns (ok: bool)
      modifies this
      ensures ok ==>
                && id in old(clients)
                && State() == RemoveClients(old(State()), {id}).(revoked := old(revoked) + {old(clients)[id].tokenHash})
      ensures !ok ==> State() == old(State())
      ensures up ==> (ok <==> id in old(clients))
    {
      if id !in clients {
        return false;
      }
      var hash := clients[id].tokenHash;
      var saved, savedTunnels, savedSamples, savedCodes := clients, tunnels, samples, codes;
      DeleteClientRows({id});
      ok := Exec();
      if ok {
        revoked := revoked + {hash};
      } else {
        clients, tunnels, samples, codes := saved, savedTunnels, savedSamples, savedCodes;
      }
    }

    /** FactoryReset: every token revoked in the loop, then every client deleted. */
    method FactoryReset() returns (ok: bool)
      modifies this
      ensures ok ==> State() == RemoveClients(old(State()), old(clients).Keys).(revoked :=
                       old(revoked) + TokenHashes(old(clients), old(clients).Keys))
      ensures !ok ==> State() == old(State())
      ensures up ==> ok
    {
      var saved := revoked;
      var rest := clients.Keys;
      while rest != {}
        invariant rest <= clients.Keys && State() == old(State()).(revoked := revoked)
        invariant revoked == saved + TokenHashes(clients, clients.Keys - rest)
        decreases |rest|
      {
        var i :| i in rest;
        ok := Exec();
        if !ok {
          revoked := saved;
          return;
        }
        assert clients.Keys - (rest - {i}) == (clients.Keys - rest) + {i};
        revoked := revoked + {clients[i].tokenHash};
        rest := rest - {i};
      }
      ok := Exec();
      if !ok {
        revoked := saved;
        return;
      }
      assert clients.Keys - rest == clients.Keys;
      DeleteClientRows(clients.Keys);
    }
  }
}
