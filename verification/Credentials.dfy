/**
 Client credentials over the life of the server: tokens are generated, handed out behind
 enrollment codes, rotated, used to connect, and revoked. Tokens, codes and ids are fresh
 random values and hashing is injective.
 */
module Credentials {
  import opened Wrappers
  import opened Store

  // ---- Answering a connection ----------------------------------------------------------------------

  datatype Answer = Accepted(id: Id) | Uninstall | Invalid

  /** What handleConn answers, as far as the statements do not fail. */
  ghost predicate Answers(db: Tables, token: string, a: Answer) {
    match a
    case Accepted(id) => id in db.clients && db.clients[id].tokenHash == Sha256(token)
    case Uninstall => HashFree(db.clients, Sha256(token)) && Sha256(token) in db.revoked
    case Invalid => HashFree(db.clients, Sha256(token)) && Sha256(token) !in db.revoked
  }

  /** The authentication of handleConn. */
  method Authenticate(db: DB, token: string) returns (answered: bool, a: Answer)
    ensures answered ==> Answers(db.State(), token, a)
    ensures a.Accepted? ==> Answers(db.State(), token, a)
    ensures a.Uninstall? ==> Sha256(token) in db.revoked
    ensures db.up ==> answered
  {
    var found, id := db.GetClientByTokenHash(Sha256(token));
    if id.Some? {
      return true, Accepted(id.value);
    }
    var known, revoked := db.IsTokenRevoked(Sha256(token));
    a := if revoked then Uninstall else Invalid;
    answered := found && known;
  }

  function MarkSeen(db: Tables, id: Id): Tables {
    if id in db.clients then db.(clients := db.clients[id := db.clients[id].(lastSeen := true)]) else db
  }

  /**
   The statements of handleConn: after an acceptance the client is marked as seen, in a
   statement of its own whose error is ignored.
   */
  method HandleConn(db: DB, token: string) returns (a: Answer, seen: bool)
    modifies db
    ensures a.Accepted? ==> Answers(old(db.State()), token, a)
    ensures db.State() == if a.Accepted? && seen then MarkSeen(old(db.State()), a.id) else old(db.State())
    ensures db.up ==> Answers(old(db.State()), token, a) && seen == a.Accepted?
  {
    var answered;
    answered, a := Authenticate(db, token);
    seen := false;
    if a.Accepted? {
      seen := db.UpdateClientLastSeen(a.id);
    }
  }

  // ---- The handlers that generate tokens ------------------------------------------------------------

  function PutClient(db: Tables, id: Id, client: Client): Tables {
    db.(clients := db.clients[id := client])
  }

  function Enroll(db: Tables, id: Id, token: string, code: string, now: int): Tables {
    db.(codes := db.codes[Sha256(code) := Code(id, token, now + ENROLL_CODE_TTL)])
  }

  predicate IsAlphanumeric(c: char) {
    'a' <= c <= 'z' || 'A' <= c <= 'Z' || '0' <= c <= '9'
  }

  /** The pattern of client names. */
  predicate ValidName(name: string) {
    && 1 <= |name| <= 64
    && IsAlphanumeric(name[0])
    && forall i :: 1 <= i < |name| ==> IsAlphanumeric(name[i]) || name[i] == '_' || name[i] == '-'
  }

  /** The ASCII codes of the digits, the letters, '-' and '_'. */
  predicate InPattern(code: int) {
    48 <= code <= 57 || 65 <= code <= 90 || 97 <= code <= 122 || code == 45 || code == 95
  }

  lemma PatternCodes(name: string)
    ensures !ValidName(name) <==>
              || name == "" || |name| > 64 || name[0] in "_-"
              || exists i :: 0 <= i < |name| && !InPattern(name[i] as int)
  {}

  datatype Reply = BadName | NameTaken | NotFound | AlreadyConnected | NoToken | NoCode | Issued

  /**
   handleCreateClient. A failure to store the code leaves the client behind without one.
   The id, token and code are the ones generated on the way.
   */
  method HandleCreateClient(db: DB, name: string, id: Id, token: string, code: string, now: int) returns (reply: Reply)
    modifies db
    ensures reply.BadName? <==> !ValidName(name)
    ensures reply.BadName? <==>
              || name == "" || |name| > 64 || name[0] in "_-"
              || exists i :: 0 <= i < |name| && !InPattern(name[i] as int)
    ensures reply.BadName? || reply.NameTaken? || reply.NoCode? || reply.Issued?
    ensures reply.BadName? || reply.NameTaken? ==> db.State() == old(db.State())
    ensures reply.NoCode? || reply.Issued? ==> CanInsertClient(old(db.State()), id, Client(name, Sha256(token), false, None))
    ensures reply.NoCode? ==> db.State() == PutClient(old(db.State()), id, Client(name, Sha256(token), false, None))
    ensures reply.Issued? ==>
              && Sha256(code) !in old(db.codes)
              && db.State() == Enroll(PutClient(old(db.State()), id, Client(name, Sha256(token), false, None)), id, token, code, now)
    ensures db.up && reply.NameTaken? ==> !CanInsertClient(old(db.State()), id, Client(name, Sha256(token), false, None))
    ensures db.up && reply.NoCode? ==> Sha256(code) in old(db.codes)
  {
    PatternCodes(name);
    if !ValidName(name) {
      return BadName;
    }
    var ok := db.CreateClient(id, name, token);
    if !ok {
      return NameTaken;
    }
    ok := db.CreateEnrollmentCode(id, token, code, now);
    reply := if ok then Issued else NoCode;
  }

  /**
   handleReissueInstall: only for a machine that was never seen. A failure to store the
   code leaves the token rotated - the client's earlier code is then worthless.
   */
  method HandleReissueInstall(db: DB, id: Id, token: string, code: string, now: int) returns (reply: Reply)
    modifies db
    ensures reply.NotFound? || reply.AlreadyConnected? || reply.NoToken? || reply.NoCode? || reply.Issued?
    ensures reply.NotFound? || reply.AlreadyConnected? || reply.NoToken? ==> db.State() == old(db.State())
    ensures reply.AlreadyConnected? ==> id in old(db.clients) && old(db.clients)[id].lastSeen
    ensures reply.NoCode? || reply.Issued? ==>
              id in old(db.clients) && !old(db.clients)[id].lastSeen && HashFree(old(db.clients), Sha256(token))
    ensures reply.NoCode? ==>
              db.State() == PutClient(old(db.State()), id, old(db.clients)[id].(tokenHash := Sha256(token)))
    ensures reply.Issued? ==>
              && Sha256(code) !in old(db.codes)
              && db.State() == Enroll(PutClient(old(db.State()), id, old(db.clients)[id].(tokenHash := Sha256(token))),
                                      id, token, code, now)
    ensures db.up ==> (reply.NotFound? <==> id !in old(db.clients))
    ensures db.up ==> (reply.AlreadyConnected? <==> id in old(db.clients) && old(db.clients)[id].lastSeen)
    ensures db.up && reply.NoToken? ==> !HashFree(old(db.clients), Sha256(token))
    ensures db.up && reply.NoCode? ==> Sha256(code) in old(db.codes)
  {
    var found := db.Exec();
    if !found || id !in db.clients {
      return NotFound;
    }
    if db.clients[id].lastSeen {
      return AlreadyConnected;
    }
    var ok := db.RotateClientToken(id, token);
    if !ok {
      return NoToken;
    }
    ok := db.CreateEnrollmentCode(id, token, code, now);
    reply := if ok then Issued else NoCode;
  }

  // ---- Histories -----------------------------------------------------------------------------------------

  datatype Issue = Issue(id: Id, token: string)

  /**
   Beside the tables: whom each token was ever generated for, each client's current token,
   what each code was ever issued for, each client's newest code, which tokens were ever
   accepted, which were still current when the connection marked its client as seen
   (`settled`), how often each code was consumed by an exchange, how often each token was
   handed out by one, the clients whose last rotation got no code, and the reissue handlers
   that are past their check, by client.
   */
  datatype World = World(
    db: Tables, owner: map<string, Id>, current: map<Id, string>, issued: map<string, Issue>, newest: map<Id, string>,
    accepted: map<string, Id>, settled: set<string>, exchanged: multiset<string>, handed: multiset<string>,
    orphaned: set<Id>, cleared: multiset<Id>)

  const Genesis := World(Empty, map[], map[], map[], map[], map[], {}, multiset{}, multiset{}, {}, multiset{})

  datatype Event =
    | Create(id: Id, name: string, token: string, code: string, codeOk: bool, now: int)
    | Reissue(id: Id, token: string, code: string, codeOk: bool, now: int)  // the handler as one step ...
    | Check(id: Id)                                                         // ... or its check on its own
    | Rotate(id: Id, token: string, code: string, codeOk: bool, now: int)   // and the rest of it later
    | Accept(token: string)
    | Seen(token: string)                  // the connection accepted with this token marks its client
    | Delete(id: Id)
    | FactoryReset
    | Exchange(code: string, now: int, readOk: bool)   // the client's row is read after the code is gone
    | Tunnels(tunnels: map<Id, Tunnel>, samples: seq<Sample>)
    | SetLimit(id: Id, limit: Option<int>)

  /** A new or rotated token; until it has an enrollment code its client is orphaned. */
  function Generate(w: World, id: Id, client: Client, token: string): World {
    w.(db := PutClient(w.db, id, client), owner := w.owner[token := id],
       current := w.current[id := token], orphaned := w.orphaned + {id})
  }

  /** The enrollment code of a token, if creating it succeeds. */
  function WithCode(w: World, id: Id, token: string, code: string, codeOk: bool, now: int): (v: World)
    ensures v.db.clients == w.db.clients && v.db.revoked == w.db.revoked
    ensures v.owner == w.owner && v.current == w.current && v.accepted == w.accepted && v.settled == w.settled
    ensures v.exchanged == w.exchanged && v.handed == w.handed && v.cleared == w.cleared
  {
    if !codeOk || code in w.issued || Sha256(code) in w.db.codes then w
    else w.(db := Enroll(w.db, id, token, code, now), issued := w.issued[code := Issue(id, token)],
            newest := w.newest[id := code], orphaned := w.orphaned - {id})
  }

  /** A token is generated for a client, and a code for the token. */
  function Renew(w: World, id: Id, client: Client, token: string, code: string, codeOk: bool, now: int): World {
    WithCode(Generate(w, id, client, token), id, token, code, codeOk, now)
  }

  predicate MayCreate(w: World, id: Id, name: string, token: string) {
    id !in w.current && token !in w.owner && CanInsertClient(w.db, id, Client(name, Sha256(token), false, None))
  }

  predicate MayReissue(w: World, id: Id, token: string) {
    id in w.db.clients && !w.db.clients[id].lastSeen && token !in w.owner && HashFree(w.db.clients, Sha256(token))
  }

  /** A handler past its check does not look at the last-seen time again. */
  predicate MayRotate(w: World, id: Id, token: string) {
    id in w.cleared && id in w.db.clients && token !in w.owner && HashFree(w.db.clients, Sha256(token))
  }

  /** One handler less is past its check. */
  function Leave(w: World, id: Id): World {
    w.(cleared := w.cleared - multiset{id})
  }

  function StepAdmin(w: World, e: Event): World {
    match e
    case Create(id, name, token, code, codeOk, now) =>
      if !MayCreate(w, id, name, token) then w
      else Renew(w, id, Client(name, Sha256(token), false, None), token, code, codeOk, now)
    case Reissue(id, token, code, codeOk, now) =>
      if !MayReissue(w, id, token) then w
      else Renew(w, id, w.db.clients[id].(tokenHash := Sha256(token)), token, code, codeOk, now)
    case Check(id) =>
      if id !in w.db.clients || w.db.clients[id].lastSeen then w else w.(cleared := w.cleared + multiset{id})
    case Rotate(id, token, code, codeOk, now) =>
      if !MayRotate(w, id, token) then Leave(w, id)
      else Renew(Leave(w, id), id, w.db.clients[id].(tokenHash := Sha256(token)), token, code, codeOk, now)
    case Delete(id) =>
      if id !in w.db.clients then w
      else w.(db := RemoveClients(w.db, {id}).(revoked := w.db.revoked + {w.db.clients[id].tokenHash}))
    case FactoryReset =>
      w.(db := RemoveClients(w.db, w.db.clients.Keys).(revoked := w.db.revoked + TokenHashes(w.db.clients, w.db.clients.Keys)))
    case Tunnels(tunnels, samples) => w.(db := w.db.(tunnels := tunnels, samples := samples))
    case SetLimit(id, limit) =>
      if id !in w.db.clients then w
      else w.(db := w.db.(clients := w.db.clients[id := w.db.clients[id].(limit := limit)]))
    case _ => w
  }

  function StepMachine(w: World, e: Event): World {
    match e
    case Accept(token) =>
      if token in w.owner && w.owner[token] in w.db.clients && w.db.clients[w.owner[token]].tokenHash == Sha256(token)
      then w.(accepted := w.accepted[token := w.owner[token]]) else w
    case Seen(token) =>
      if token !in w.accepted || w.accepted[token] !in w.db.clients then w
      else
        var id := w.accepted[token];
        w.(db := MarkSeen(w.db, id),
           settled := if w.db.clients[id].tokenHash == Sha256(token) then w.settled + {token} else w.settled)
    case Exchange(code, now, readOk) =>
      if Redeem(w.db.codes, code, now).None? then w
      else w.(db := w.db.(codes := w.db.codes - {Sha256(code)}), exchanged := w.exchanged + multiset{code},
              handed := if readOk then w.handed + multiset{Redeem(w.db.codes, code, now).value.token} else w.handed)
    case _ => w
  }

  function Step(w: World, e: Event): World {
    StepMachine(StepAdmin(w, e), e)
  }

  function RunFrom(w: World, events: seq<Event>): World {
    if events == [] then w else Step(RunFrom(w, events[..|events| - 1]), events[|events| - 1])
  }

  function Run(events: seq<Event>): World {
    RunFrom(Genesis, events)
  }

  // ---- Invariant ---------------------------------------------------------------------------------------------

  predicate ClientInv(w: World, i: Id) {
    && (i in w.db.clients ==>
          && i in w.current && w.db.clients[i].tokenHash == Sha256(w.current[i])
          && Sha256(w.current[i]) !in w.db.revoked)
    && (i in w.current ==> w.current[i] in w.owner && w.owner[w.current[i]] == i)
    && (i in w.newest ==> w.newest[i] in w.issued && w.issued[w.newest[i]].id == i)
    && (i in w.newest && i in w.current ==> (w.issued[w.newest[i]].token == w.current[i] <==> i !in w.orphaned))
  }

  predicate TokenInv(w: World, t: string) {
    && (Sha256(t) in w.db.revoked ==> t in w.owner)
    && (t in w.accepted ==> t in w.owner && w.accepted[t] == w.owner[t])
    && (t in w.settled ==> t in w.owner)
  }

  /** The token is its client's, and the client counts as seen. */
  predicate Connected(w: World, t: string)
    requires t in w.owner
  {
    var i := w.owner[t];
    i in w.db.clients && w.db.clients[i].lastSeen && w.db.clients[i].tokenHash == Sha256(t)
  }

  predicate CodeInv(w: World, c: string) {
    && (Sha256(c) in w.db.codes ==>
          && c in w.issued && w.exchanged[c] == 0
          && w.db.codes[Sha256(c)].clientId == w.issued[c].id && w.db.codes[Sha256(c)].token == w.issued[c].token
          && w.issued[c].id in w.db.clients)
    && (c !in w.issued ==> w.exchanged[c] == 0)
    && w.exchanged[c] <= 1
    && (c in w.issued ==>
          && w.issued[c].token in w.owner && w.owner[w.issued[c].token] == w.issued[c].id
          && w.issued[c].id in w.newest && w.issued[c].id in w.current
          && (c != w.newest[w.issued[c].id] ==> w.issued[c].token != w.current[w.issued[c].id]))
  }

  ghost predicate Inv(w: World) {
    && (forall i :: ClientInv(w, i))
    && (forall t :: TokenInv(w, t))
    && (forall c :: CodeInv(w, c))
  }

  lemma Wrap(w: World)
    requires forall i :: ClientInv(w, i)
    requires forall t :: TokenInv(w, t)
    requires forall c :: CodeInv(w, c)
    ensures Inv(w)
  {}

  // ---- Generating a token --------------------------------------------------------------------------------------

  /** A client is added, or an existing one gets a fresh token. */
  ghost predicate MayGenerate(w: World, id: Id, client: Client, token: string) {
    && token !in w.owner && client.tokenHash == Sha256(token)
    && (id in w.current ==> id in w.db.clients)
  }

  lemma GenerateClient(w: World, id: Id, client: Client, token: string, v: World, i: Id)
    requires Inv(w) && MayGenerate(w, id, client, token) && v == Generate(w, id, client, token)
    ensures ClientInv(v, i)
  {
    assert ClientInv(w, i) && TokenInv(w, token);
    if i in w.newest {
      assert CodeInv(w, w.newest[i]);
    }
  }

  lemma GenerateToken(w: World, id: Id, client: Client, token: string, v: World, t: string)
    requires Inv(w) && MayGenerate(w, id, client, token) && v == Generate(w, id, client, token)
    ensures TokenInv(v, t)
  {
    assert TokenInv(w, t) && ClientInv(w, id);
  }

  lemma GenerateCode(w: World, id: Id, client: Client, token: string, v: World, c: string)
    requires Inv(w) && MayGenerate(w, id, client, token) && v == Generate(w, id, client, token)
    ensures CodeInv(v, c)
  {
    assert CodeInv(w, c);
  }

  lemma GenerateKeeps(w: World, id: Id, client: Client, token: string, v: World)
    requires Inv(w) && MayGenerate(w, id, client, token) && v == Generate(w, id, client, token)
    ensures Inv(v)
  {
    forall i ensures ClientInv(v, i) { GenerateClient(w, id, client, token, v, i); }
    forall t ensures TokenInv(v, t) { GenerateToken(w, id, client, token, v, t); }
    forall c ensures CodeInv(v, c) { GenerateCode(w, id, client, token, v, c); }
    Wrap(v);
  }

  // ---- Issuing a code ---------------------------------------------------------------------------------------------

  /** The client's token is current, orphaned, and in no code yet. */
  ghost predicate MayIssue(w: World, id: Id, token: string) {
    && id in w.db.clients && id in w.current && w.current[id] == token && id in w.orphaned
  }

  lemma IssueClient(w: World, id: Id, token: string, code: string, codeOk: bool, now: int, v: World, i: Id)
    requires Inv(w) && MayIssue(w, id, token) && v == WithCode(w, id, token, code, codeOk, now)
    ensures ClientInv(v, i)
  {
    assert ClientInv(w, i);
  }

  lemma IssueToken(w: World, id: Id, token: string, code: string, codeOk: bool, now: int, v: World, t: string)
    requires Inv(w) && MayIssue(w, id, token) && v == WithCode(w, id, token, code, codeOk, now)
    ensures TokenInv(v, t)
  {
    assert TokenInv(w, t);
  }

  lemma IssueCode(w: World, id: Id, token: string, code: string, codeOk: bool, now: int, v: World, c: string)
    requires Inv(w) && MayIssue(w, id, token) && v == WithCode(w, id, token, code, codeOk, now)
    ensures CodeInv(v, c)
  {
    assert CodeInv(w, c) && CodeInv(w, code) && ClientInv(w, id);
  }

  lemma IssueKeeps(w: World, id: Id, token: string, code: string, codeOk: bool, now: int, v: World)
    requires Inv(w) && MayIssue(w, id, token) && v == WithCode(w, id, token, code, codeOk, now)
    ensures Inv(v)
  {
    forall i ensures ClientInv(v, i) { IssueClient(w, id, token, code, codeOk, now, v, i); }
    forall t ensures TokenInv(v, t) { IssueToken(w, id, token, code, codeOk, now, v, t); }
    forall c ensures CodeInv(v, c) { IssueCode(w, id, token, code, codeOk, now, v, c); }
    Wrap(v);
  }

  // ---- Deleting clients ----------------------------------------------------------------------------------------------

  function DeleteAll(w: World, ids: set<Id>): World {
    w.(db := RemoveClients(w.db, ids).(revoked := w.db.revoked + TokenHashes(w.db.clients, ids)))
  }

  lemma DeleteClientInv(w: World, ids: set<Id>, v: World, i: Id)
    requires Inv(w) && v == DeleteAll(w, ids)
    ensures ClientInv(v, i)
  {
    assert ClientInv(w, i);
    forall j | j in ids && j in w.db.clients
      ensures j in w.current && w.db.clients[j].tokenHash == Sha256(w.current[j])
      ensures w.current[j] in w.owner && w.owner[w.current[j]] == j
    {
      assert ClientInv(w, j);
    }
  }

  lemma DeleteTokenInv(w: World, ids: set<Id>, v: World, t: string)
    requires Inv(w) && v == DeleteAll(w, ids)
    ensures TokenInv(v, t)
  {
    assert TokenInv(w, t);
    if Sha256(t) in v.db.revoked && Sha256(t) !in w.db.revoked {
      var j :| j in ids && j in w.db.clients && w.db.clients[j].tokenHash == Sha256(t);
      assert ClientInv(w, j);
    }
  }

  lemma DeleteCodeInv(w: World, ids: set<Id>, v: World, c: string)
    requires Inv(w) && v == DeleteAll(w, ids)
    ensures CodeInv(v, c)
  {
    assert CodeInv(w, c);
  }

  lemma DeleteKeeps(w: World, ids: set<Id>, v: World)
    requires Inv(w) && v == DeleteAll(w, ids)
    ensures Inv(v)
  {
    forall i ensures ClientInv(v, i) { DeleteClientInv(w, ids, v, i); }
    forall t ensures TokenInv(v, t) { DeleteTokenInv(w, ids, v, t); }
    forall c ensures CodeInv(v, c) { DeleteCodeInv(w, ids, v, c); }
    Wrap(v);
  }

  // ---- What a machine does ---------------------------------------------------------------------------------------------

  lemma MachineClient(w: World, e: Event, v: World, i: Id)
    requires Inv(w) && v == StepMachine(w, e)
    ensures ClientInv(v, i)
  {
    assert ClientInv(w, i);
  }

  lemma MachineToken(w: World, e: Event, v: World, t: string)
    requires Inv(w) && v == StepMachine(w, e)
    ensures TokenInv(v, t)
  {
    assert TokenInv(w, t);
  }

  lemma MachineCode(w: World, e: Event, v: World, c: string)
    requires Inv(w) && v == StepMachine(w, e)
    ensures CodeInv(v, c)
  {
    assert CodeInv(w, c);
  }

  lemma MachineKeeps(w: World, e: Event, v: World)
    requires Inv(w) && v == StepMachine(w, e)
    ensures Inv(v)
  {
    forall i ensures ClientInv(v, i) { MachineClient(w, e, v, i); }
    forall t ensures TokenInv(v, t) { MachineToken(w, e, v, t); }
    forall c ensures CodeInv(v, c) { MachineCode(w, e, v, c); }
    Wrap(v);
  }

  lemma ClearedKeeps(w: World, cleared: multiset<Id>, v: World)
    requires Inv(w) && v == w.(cleared := cleared)
    ensures Inv(v)
  {
    forall i ensures ClientInv(v, i) { assert ClientInv(w, i); }
    forall t ensures TokenInv(v, t) { assert TokenInv(w, t); }
    forall c ensures CodeInv(v, c) { assert CodeInv(w, c); }
    Wrap(v);
  }

  lemma LimitKeeps(w: World, id: Id, limit: Option<int>, v: World)
    requires Inv(w) && v == StepAdmin(w, SetLimit(id, limit))
    ensures Inv(v)
  {
    forall i ensures ClientInv(v, i) { assert ClientInv(w, i); }
    forall t ensures TokenInv(v, t) { assert TokenInv(w, t); }
    forall c ensures CodeInv(v, c) { assert CodeInv(w, c); }
    Wrap(v);
  }

  lemma TunnelsKeep(w: World, tunnels: map<Id, Tunnel>, samples: seq<Sample>, v: World)
    requires Inv(w) && v == w.(db := w.db.(tunnels := tunnels, samples := samples))
    ensures Inv(v)
  {
    forall i ensures ClientInv(v, i) { assert ClientInv(w, i); }
    forall t ensures TokenInv(v, t) { assert TokenInv(w, t); }
    forall c ensures CodeInv(v, c) { assert CodeInv(w, c); }
    Wrap(v);
  }

  // ---- Every step -------------------------------------------------------------------------------------------------------

  lemma AdminKeeps(w: World, e: Event, v: World)
    requires Inv(w) && v == StepAdmin(w, e)
    ensures Inv(v)
  {
    match e
    case Create(id, name, token, code, codeOk, now) =>
      if MayCreate(w, id, name, token) {
        GenerateAndIssue(w, id, Client(name, Sha256(token), false, None), token, code, codeOk, now, v);
      }
    case Reissue(id, token, code, codeOk, now) =>
      if MayReissue(w, id, token) {
        assert ClientInv(w, id);
        GenerateAndIssue(w, id, w.db.clients[id].(tokenHash := Sha256(token)), token, code, codeOk, now, v);
      }
    case Check(id) => ClearedKeeps(w, v.cleared, v);
    case Rotate(id, token, code, codeOk, now) => RotateKeeps(w, id, token, code, codeOk, now, v);
    case Delete(id) =>
      if id in w.db.clients {
        assert TokenHashes(w.db.clients, {id}) == {w.db.clients[id].tokenHash};
        DeleteKeeps(w, {id}, v);
      }
    case FactoryReset => DeleteKeeps(w, w.db.clients.Keys, v);
    case Tunnels(tunnels, samples) => TunnelsKeep(w, tunnels, samples, v);
    case SetLimit(id, limit) => LimitKeeps(w, id, limit, v);
    case _ =>
  }

  lemma RotateKeeps(w: World, id: Id, token: string, code: string, codeOk: bool, now: int, v: World)
    requires Inv(w) && v == StepAdmin(w, Rotate(id, token, code, codeOk, now))
    ensures Inv(v)
  {
    var u := Leave(w, id);
    ClearedKeeps(w, u.cleared, u);
    if MayRotate(w, id, token) {
      assert ClientInv(w, id);
      GenerateAndIssue(u, id, w.db.clients[id].(tokenHash := Sha256(token)), token, code, codeOk, now, v);
    }
  }

  lemma GenerateAndIssue(w: World, id: Id, client: Client, token: string, code: string, codeOk: bool, now: int, v: World)
    requires Inv(w) && MayGenerate(w, id, client, token)
    requires v == Renew(w, id, client, token, code, codeOk, now)
    ensures Inv(v)
  {
    var mid := Generate(w, id, client, token);
    GenerateKeeps(w, id, client, token, mid);
    IssueKeeps(mid, id, token, code, codeOk, now, v);
  }

  lemma {:induction false} RunKeeps(w: World, events: seq<Event>)
    requires Inv(w)
    ensures Inv(RunFrom(w, events))
  {
    if events != [] {
      var v, e := RunFrom(w, events[..|events| - 1]), events[|events| - 1];
      RunKeeps(w, events[..|events| - 1]);
      AdminKeeps(v, e, StepAdmin(v, e));
      MachineKeeps(StepAdmin(v, e), e, RunFrom(w, events));
    }
  }

  lemma Reached(events: seq<Event>)
    ensures Inv(Run(events))
  {
    RunKeeps(Genesis, events);
  }

  // ---- Handlers past their check ---------------------------------------------------------------------------------------

  function Rotations(w: World, events: seq<Event>, id: Id): nat {
    if events == [] then 0
    else
      var e := events[|events| - 1];
      Rotations(w, events[..|events| - 1], id)
      + if e.Rotate? && e.id == id && MayRotate(RunFrom(w, events[..|events| - 1]), id, e.token) then 1 else 0
  }

  lemma ClearedStep(w: World, e: Event, v: World, id: Id)
    requires v == Step(w, e)
    ensures v.cleared[id] + (if e.Rotate? && e.id == id && MayRotate(w, id, e.token) then 1 else 0)
         <= w.cleared[id] + (if e == Check(id) then 1 else 0)
  {
    AdminCleared(w, e, StepAdmin(w, e), id);
    MachineCleared(StepAdmin(w, e), e, v);
  }

  lemma AdminCleared(w: World, e: Event, v: World, id: Id)
    requires v == StepAdmin(w, e)
    ensures v.cleared[id] + (if e.Rotate? && e.id == id && MayRotate(w, id, e.token) then 1 else 0)
         <= w.cleared[id] + (if e == Check(id) then 1 else 0)
  {
    match e
    case Check(i) =>
    case Rotate(i, token, code, codeOk, now) => assert v.cleared == Leave(w, i).cleared;
    case _ => assert v.cleared == w.cleared;
  }

  lemma MachineCleared(w: World, e: Event, v: World)
    requires v == StepMachine(w, e)
    ensures v.cleared == w.cleared
  {}

  /** Every late rotation has had a check of its own. */
  lemma {:induction false} RotationsHaveChecks(events: seq<Event>, id: Id)
    ensures Run(events).cleared[id] + Rotations(Genesis, events, id) <= multiset(events)[Check(id)]
  {
    if events != [] {
      assert events == events[..|events| - 1] + [events[|events| - 1]];
      RotationsHaveChecks(events[..|events| - 1], id);
      ClearedStep(Run(events[..|events| - 1]), events[|events| - 1], Run(events), id);
    }
  }

  // ---- Live and revoked tokens -----------------------------------------------------------------------------------------

  /** No client's token is ever among the revoked ones, and no two clients share one. */
  lemma LiveAreNotRevoked(events: seq<Event>, i: Id, j: Id)
    requires i in Run(events).db.clients && j in Run(events).db.clients
    ensures Run(events).db.clients[i].tokenHash !in Run(events).db.revoked
    ensures Run(events).db.clients[i].tokenHash == Run(events).db.clients[j].tokenHash ==> i == j
  {
    Reached(events);
    assert ClientInv(Run(events), i) && ClientInv(Run(events), j);
  }

  /** Whom a token is accepted as, if anyone: the client it was generated for, while it is that client's current one. */
  lemma AcceptedAs(events: seq<Event>, t: string, i: Id)
    ensures var w := Run(events);
            Answers(w.db, t, Accepted(i)) <==>
              t in w.owner && w.owner[t] == i && i in w.db.clients && i in w.current && w.current[i] == t
  {
    Reached(events);
    assert ClientInv(Run(events), i);
  }

  lemma RevokedIsNotLive(w: World, t: string)
    requires Inv(w) && Sha256(t) in w.db.revoked
    ensures HashFree(w.db.clients, Sha256(t))
  {
    forall i | i in w.db.clients
      ensures w.db.clients[i].tokenHash != Sha256(t)
    {
      assert ClientInv(w, i);
    }
  }

  lemma RunSnoc(w: World, events: seq<Event>, e: Event)
    ensures RunFrom(w, events + [e]) == Step(RunFrom(w, events), e)
  {
    assert (events + [e])[..|events|] == events;
  }

  lemma {:induction false} RunConcat(w: World, a: seq<Event>, b: seq<Event>)
    ensures RunFrom(w, a + b) == RunFrom(RunFrom(w, a), b)
  {
    if b == [] {
      assert a + b == a;
    } else {
      assert (a + b)[..|a + b| - 1] == a + b[..|b| - 1];
      RunConcat(w, a, b[..|b| - 1]);
    }
  }

  /** Accepting and marking as seen in one step settles the token, for good. */
  lemma {:induction false} ConnectingSettles(w: World, t: string, after: seq<Event>)
    requires Inv(w) && t in w.owner && Answers(w.db, t, Accepted(w.owner[t]))
    ensures t in RunFrom(Step(Step(w, Accept(t)), Seen(t)), after).settled
  {
    assert t in Step(Step(w, Accept(t)), Seen(t)).settled;
    SettledStays(Step(Step(w, Accept(t)), Seen(t)), after, t);
  }

  lemma {:induction false} SettledStays(w: World, after: seq<Event>, t: string)
    requires t in w.settled
    ensures t in RunFrom(w, after).settled
  {
    if after != [] {
      SettledStays(w, after[..|after| - 1], t);
      HistoriesGrow(RunFrom(w, after[..|after| - 1]), after[|after| - 1], RunFrom(w, after));
    }
  }

  lemma HistoriesGrow(w: World, e: Event, v: World)
    requires v == Step(w, e)
    ensures w.settled <= v.settled && w.db.revoked <= v.db.revoked
  {
    AdminHistoriesGrow(w, e, StepAdmin(w, e));
  }

  lemma AdminHistoriesGrow(w: World, e: Event, v: World)
    requires v == StepAdmin(w, e)
    ensures w.settled == v.settled && w.db.revoked <= v.db.revoked
  {}

  // ---- When a token becomes invalid ----------------------------------------------------------------------------------------

  /** Whether something happened in a run. */
  predicate Happened(w: World, events: seq<Event>, at: (World, Event) -> bool) {
    exists k :: 0 <= k < |events| && at(RunFrom(w, events[..k]), events[k])
  }

  lemma Earlier(events: seq<Event>, e: Event, k: nat)
    requires k < |events|
    ensures (events + [e])[..k] == events[..k] && (events + [e])[k] == events[k]
  {}

  lemma HappenedBefore(w: World, events: seq<Event>, e: Event, at: (World, Event) -> bool)
    requires Happened(w, events, at)
    ensures Happened(w, events + [e], at)
  {
    var k :| 0 <= k < |events| && at(RunFrom(w, events[..k]), events[k]);
    Earlier(events, e, k);
    assert at(RunFrom(w, (events + [e])[..k]), (events + [e])[k]);
  }

  lemma HappensNow(w: World, events: seq<Event>, e: Event, at: (World, Event) -> bool)
    requires at(RunFrom(w, events), e)
    ensures Happened(w, events + [e], at)
  {
    assert (events + [e])[..|events|] == events;
    assert at(RunFrom(w, (events + [e])[..|events|]), (events + [e])[|events|]);
  }

  lemma HappenedSnoc(w: World, events: seq<Event>, e: Event, at: (World, Event) -> bool)
    ensures Happened(w, events + [e], at) <==> Happened(w, events, at) || at(RunFrom(w, events), e)
  {
    if Happened(w, events, at) {
      HappenedBefore(w, events, e, at);
    }
    if at(RunFrom(w, events), e) {
      HappensNow(w, events, e, at);
    }
    if Happened(w, events + [e], at) {
      var k :| 0 <= k < |events + [e]| && at(RunFrom(w, (events + [e])[..k]), (events + [e])[k]);
      if k < |events| {
        Earlier(events, e, k);
        assert at(RunFrom(w, events[..k]), events[k]);
      } else {
        assert (events + [e])[..k] == events;
      }
    }
  }

  /** A reissue that goes through while the token is its client's current one. */
  predicate RotatesAt(w: World, e: Event, t: string) {
    && ((e.Reissue? && MayReissue(w, e.id, e.token)) || (e.Rotate? && MayRotate(w, e.id, e.token)))
    && e.id in w.current && w.current[e.id] == t
  }

  predicate Rotated(w: World, events: seq<Event>, t: string) {
    Happened(w, events, (v: World, e: Event) => RotatesAt(v, e, t))
  }

  /** A rotated token is not revoked; one that was not rotated is current, or was revoked with its client. */
  predicate Fate(w: World, t: string, rotated: bool) {
    if t !in w.owner then !rotated
    else if rotated then Sha256(t) !in w.db.revoked && w.owner[t] in w.current && w.current[w.owner[t]] != t
    else Sha256(t) in w.db.revoked || (w.owner[t] in w.db.clients && w.owner[t] in w.current && w.current[w.owner[t]] == t)
  }

  lemma GenerateFate(w: World, id: Id, client: Client, token: string, v: World, t: string, rotated: bool)
    requires Inv(w) && Fate(w, t, rotated) && MayGenerate(w, id, client, token) && v == Generate(w, id, client, token)
    ensures Fate(v, t, rotated || (id in w.current && w.current[id] == t))
  {
    assert ClientInv(w, id) && TokenInv(w, t) && TokenInv(w, token);
  }

  lemma DeleteFate(w: World, ids: set<Id>, v: World, t: string, rotated: bool)
    requires Inv(w) && Fate(w, t, rotated) && v == DeleteAll(w, ids)
    ensures Fate(v, t, rotated)
  {
    forall j | j in w.db.clients
      ensures j in w.current && w.db.clients[j].tokenHash == Sha256(w.current[j])
      ensures w.current[j] in w.owner && w.owner[w.current[j]] == j
    {
      assert ClientInv(w, j);
    }
  }

  lemma RotateFate(w: World, id: Id, token: string, code: string, codeOk: bool, now: int, v: World, t: string, rotated: bool)
    requires Inv(w) && Fate(w, t, rotated) && v == StepAdmin(w, Rotate(id, token, code, codeOk, now))
    ensures Fate(v, t, rotated || RotatesAt(w, Rotate(id, token, code, codeOk, now), t))
  {
    if MayRotate(w, id, token) {
      assert ClientInv(w, id);
      var u := Leave(w, id);
      ClearedKeeps(w, u.cleared, u);
      var client := w.db.clients[id].(tokenHash := Sha256(token));
      GenerateFate(u, id, client, token, Generate(u, id, client, token), t, rotated);
    }
  }

  lemma CreateFate(w: World, e: Event, v: World, t: string, rotated: bool)
    requires Inv(w) && Fate(w, t, rotated) && v == StepAdmin(w, e) && e.Create?
    ensures Fate(v, t, rotated)
  {
    if MayCreate(w, e.id, e.name, e.token) {
      var client := Client(e.name, Sha256(e.token), false, None);
      GenerateFate(w, e.id, client, e.token, Generate(w, e.id, client, e.token), t, rotated);
    }
  }

  lemma ReissueFate(w: World, e: Event, v: World, t: string, rotated: bool)
    requires Inv(w) && Fate(w, t, rotated) && v == StepAdmin(w, e) && e.Reissue?
    ensures Fate(v, t, rotated || RotatesAt(w, e, t))
  {
    if MayReissue(w, e.id, e.token) {
      assert ClientInv(w, e.id);
      var client := w.db.clients[e.id].(tokenHash := Sha256(e.token));
      GenerateFate(w, e.id, client, e.token, Generate(w, e.id, client, e.token), t, rotated);
    }
  }

  lemma AdminFate(w: World, e: Event, v: World, t: string, rotated: bool)
    requires Inv(w) && Fate(w, t, rotated) && v == StepAdmin(w, e)
    ensures Fate(v, t, rotated || RotatesAt(w, e, t))
  {
    match e
    case Create(_, _, _, _, _, _) => CreateFate(w, e, v, t, rotated);
    case Reissue(_, _, _, _, _) => ReissueFate(w, e, v, t, rotated);
    case Rotate(id, token, code, codeOk, now) => RotateFate(w, id, token, code, codeOk, now, v, t, rotated);
    case Delete(id) =>
      if id in w.db.clients {
        assert TokenHashes(w.db.clients, {id}) == {w.db.clients[id].tokenHash};
        DeleteFate(w, {id}, v, t, rotated);
      }
    case FactoryReset => DeleteFate(w, w.db.clients.Keys, v, t, rotated);
    case _ =>
  }

  lemma MachineFate(w: World, e: Event, v: World, t: string, rotated: bool)
    requires Fate(w, t, rotated) && v == StepMachine(w, e)
    ensures Fate(v, t, rotated)
  {}

  lemma {:induction false} RunFate(w: World, events: seq<Event>, t: string)
    requires Inv(w) && Fate(w, t, false)
    ensures Fate(RunFrom(w, events), t, Rotated(w, events, t))
  {
    if events != [] {
      var front, e := events[..|events| - 1], events[|events| - 1];
      var v := RunFrom(w, front);
      RunFate(w, front, t);
      RunKeeps(w, front);
      AdminKeeps(v, e, StepAdmin(v, e));
      AdminFate(v, e, StepAdmin(v, e), t, Rotated(w, front, t));
      MachineFate(StepAdmin(v, e), e, RunFrom(w, events), t, Rotated(w, front, t) || RotatesAt(v, e, t));
      HappenedSnoc(w, front, e, (x: World, y: Event) => RotatesAt(x, y, t));
      assert front + [e] == events;
    }
  }

  lemma FateDecides(w: World, t: string, rotated: bool)
    requires Inv(w) && t in w.owner && Fate(w, t, rotated)
    ensures Answers(w.db, t, Invalid) <==> rotated
  {
    forall i | i in w.db.clients
      ensures i in w.current && w.db.clients[i].tokenHash == Sha256(w.current[i])
      ensures w.current[i] in w.owner && w.owner[w.current[i]] == i
    {
      assert ClientInv(w, i);
    }
  }

  /**
   Of all the tokens ever generated, exactly those are invalid - neither accepted nor
   answered with Uninstall - that a reissue took from their client while they were current.
   */
  lemma InvalidExactlyIfRotated(events: seq<Event>, t: string)
    requires t in Run(events).owner
    ensures Answers(Run(events).db, t, Invalid) <==> Rotated(Genesis, events, t)
  {
    Reached(events);
    RunFate(Genesis, events, t);
    FateDecides(Run(events), t, Rotated(Genesis, events, t));
  }

  // ---- Tokens that connected -------------------------------------------------------------------------------------------------

  /** A rotation of a token that connected: its handler was past the check before the machine was marked as seen. */
  predicate LateAt(w: World, e: Event, t: string) {
    e.Rotate? && RotatesAt(w, e, t) && t in w.settled
  }

  predicate RotatedLate(w: World, events: seq<Event>, t: string) {
    Happened(w, events, (v: World, e: Event) => LateAt(v, e, t))
  }

  /** A token that connected and was not rotated late is revoked, or still its client's, who counts as seen. */
  predicate Kept(w: World, t: string, late: bool) {
    t in w.settled && !late ==> t in w.owner && (Sha256(t) in w.db.revoked || Connected(w, t))
  }

  lemma GenerateKept(w: World, id: Id, client: Client, token: string, v: World, t: string, late: bool)
    requires Inv(w) && Kept(w, t, late) && MayGenerate(w, id, client, token) && v == Generate(w, id, client, token)
    requires t in w.settled && !late && t in w.owner && Connected(w, t) ==> w.owner[t] != id
    ensures Kept(v, t, late)
  {
    assert TokenInv(w, t);
  }

  lemma DeleteKept(w: World, ids: set<Id>, v: World, t: string, late: bool)
    requires Inv(w) && Kept(w, t, late) && v == DeleteAll(w, ids)
    ensures Kept(v, t, late)
  {
    assert TokenInv(w, t);
  }

  lemma CreateKept(w: World, e: Event, v: World, t: string, late: bool)
    requires Inv(w) && Kept(w, t, late) && v == StepAdmin(w, e) && e.Create?
    ensures Kept(v, t, late)
  {
    if MayCreate(w, e.id, e.name, e.token) {
      var client := Client(e.name, Sha256(e.token), false, None);
      assert t in w.owner && Connected(w, t) ==> ClientInv(w, w.owner[t]);
      GenerateKept(w, e.id, client, e.token, Generate(w, e.id, client, e.token), t, late);
    }
  }

  lemma ReissueKept(w: World, e: Event, v: World, t: string, late: bool)
    requires Inv(w) && Kept(w, t, late) && v == StepAdmin(w, e) && e.Reissue?
    ensures Kept(v, t, late)
  {
    if MayReissue(w, e.id, e.token) {
      var client := w.db.clients[e.id].(tokenHash := Sha256(e.token));
      GenerateKept(w, e.id, client, e.token, Generate(w, e.id, client, e.token), t, late);
    }
  }

  lemma RemoveKept(w: World, e: Event, v: World, t: string, late: bool)
    requires Inv(w) && Kept(w, t, late) && v == StepAdmin(w, e) && !e.Create? && !e.Reissue? && !e.Rotate?
    ensures Kept(v, t, late)
  {
    match e
    case Delete(id) =>
      if id in w.db.clients {
        assert TokenHashes(w.db.clients, {id}) == {w.db.clients[id].tokenHash};
        DeleteKept(w, {id}, v, t, late);
      }
    case FactoryReset => DeleteKept(w, w.db.clients.Keys, v, t, late);
    case _ =>
  }

  lemma AdminKept(w: World, e: Event, v: World, t: string, late: bool)
    requires Inv(w) && Kept(w, t, late) && v == StepAdmin(w, e)
    ensures Kept(v, t, late || LateAt(w, e, t))
  {
    match e
    case Create(_, _, _, _, _, _) => CreateKept(w, e, v, t, late);
    case Reissue(_, _, _, _, _) => ReissueKept(w, e, v, t, late);
    case Rotate(id, token, code, codeOk, now) => RotateKept(w, id, token, code, codeOk, now, v, t, late);
    case _ => RemoveKept(w, e, v, t, late);
  }

  lemma RotateKept(w: World, id: Id, token: string, code: string, codeOk: bool, now: int, v: World, t: string, late: bool)
    requires Inv(w) && Kept(w, t, late) && v == StepAdmin(w, Rotate(id, token, code, codeOk, now))
    ensures Kept(v, t, late || LateAt(w, Rotate(id, token, code, codeOk, now), t))
  {
    if MayRotate(w, id, token) {
      assert ClientInv(w, id);
      var u := Leave(w, id);
      ClearedKeeps(w, u.cleared, u);
      var client := w.db.clients[id].(tokenHash := Sha256(token));
      GenerateKept(u, id, client, token, Generate(u, id, client, token), t,
                   late || LateAt(w, Rotate(id, token, code, codeOk, now), t));
    }
  }

  lemma MachineKept(w: World, e: Event, v: World, t: string, late: bool)
    requires Inv(w) && Kept(w, t, late) && v == StepMachine(w, e)
    ensures Kept(v, t, late)
  {
    assert TokenInv(w, t);
  }

  lemma {:induction false} RunKept(w: World, events: seq<Event>, t: string)
    requires Inv(w) && Kept(w, t, false)
    ensures Kept(RunFrom(w, events), t, RotatedLate(w, events, t))
  {
    if events != [] {
      var front, e := events[..|events| - 1], events[|events| - 1];
      var v := RunFrom(w, front);
      RunKept(w, front, t);
      RunKeeps(w, front);
      AdminKeeps(v, e, StepAdmin(v, e));
      AdminKept(v, e, StepAdmin(v, e), t, RotatedLate(w, front, t));
      MachineKept(StepAdmin(v, e), e, RunFrom(w, events), t, RotatedLate(w, front, t) || LateAt(v, e, t));
      HappenedSnoc(w, front, e, (x: World, y: Event) => LateAt(x, y, t));
      assert front + [e] == events;
    }
  }

  lemma LateIsRotated(w: World, events: seq<Event>, t: string)
    requires RotatedLate(w, events, t)
    ensures Rotated(w, events, t)
  {
    var k :| 0 <= k < |events| && LateAt(RunFrom(w, events[..k]), events[k], t);
    var at := (v: World, e: Event) => RotatesAt(v, e, t);
    assert at(RunFrom(w, events[..k]), events[k]);
  }

  /** From a state in which a token is settled and connected: it is rotated exactly if it is rotated late. */
  lemma SettledFate(w: World, events: seq<Event>, t: string)
    requires Inv(w) && Fate(w, t, false) && Kept(w, t, false) && t in RunFrom(w, events).settled
    ensures t in RunFrom(w, events).owner
    ensures Answers(RunFrom(w, events).db, t, Invalid) <==> RotatedLate(w, events, t)
  {
    var v := RunFrom(w, events);
    RunKeeps(w, events);
    RunFate(w, events, t);
    RunKept(w, events, t);
    assert TokenInv(v, t) && ClientInv(v, v.owner[t]);
    FateDecides(v, t, Rotated(w, events, t));
    if RotatedLate(w, events, t) {
      LateIsRotated(w, events, t);
    }
  }

  /**
   A token that connected - its client marked as seen while it was current - is accepted or
   answered with Uninstall ever after, unless a reissue handler whose check came before the
   marking rotates it after: exactly then it is invalid.
   */
  lemma SettledInvalidExactlyIfLate(events: seq<Event>, t: string)
    requires t in Run(events).settled
    ensures t in Run(events).owner
    ensures Answers(Run(events).db, t, Invalid) <==> RotatedLate(Genesis, events, t)
    ensures !RotatedLate(Genesis, events, t) ==>
              Answers(Run(events).db, t, Uninstall) || Answers(Run(events).db, t, Accepted(Run(events).owner[t]))
  {
    Reached(events);
    SettledFate(Genesis, events, t);
    RunKept(Genesis, events, t);
    var w := Run(events);
    if Sha256(t) in w.db.revoked {
      RevokedIsNotLive(w, t);
    }
  }

  /** With reissue handlers taken as one step it is never invalid. */
  lemma ConnectedIsNeverInvalid(events: seq<Event>, t: string)
    requires t in Run(events).settled
    requires forall k :: 0 <= k < |events| ==> !events[k].Rotate?
    ensures t in Run(events).owner
    ensures Answers(Run(events).db, t, Uninstall) || Answers(Run(events).db, t, Accepted(Run(events).owner[t]))
  {
    SettledInvalidExactlyIfLate(events, t);
  }

  /** A revoked token stays out of every rotation. */
  lemma RevokedNotRotated(w: World, events: seq<Event>, t: string)
    requires Inv(w) && t in w.owner && Sha256(t) in w.db.revoked
    ensures !Rotated(w, events, t)
  {
    RunFate(w, events, t);
    OwnersStay(w, events, t);
    RevokedGrows(w, events, t);
  }

  /**
   For a machine whose acceptance and last-seen update are apart: whatever happens in between
   and whatever happens after, its token is invalid at the end if and only if a reissue
   rotated it in between, or one whose check came in time rotated it after.
   */
  lemma RaceExactlyIfRotated(w: World, between: seq<Event>, after: seq<Event>, t: string)
    requires Inv(w) && t in w.owner && Answers(w.db, t, Accepted(w.owner[t]))
    ensures var s := Step(w, Accept(t));
            var u := Step(RunFrom(s, between), Seen(t));
            Answers(RunFrom(u, after).db, t, Invalid) <==> Rotated(s, between, t) || RotatedLate(u, after, t)
  {
    var s := Step(w, Accept(t));
    assert ClientInv(w, w.owner[t]);
    MachineKeeps(w, Accept(t), s);
    RunFate(s, between, t);
    RunKeeps(s, between);
    OwnersStay(s, between, t);
    AcceptedStays(s, between, t);
    AfterRace(RunFrom(s, between), Rotated(s, between, t), after, t);
  }

  lemma {:induction false} AcceptedStays(w: World, events: seq<Event>, t: string)
    requires t in w.accepted
    ensures t in RunFrom(w, events).accepted
  {
    if events != [] {
      AcceptedStays(w, events[..|events| - 1], t);
      AcceptedGrow(RunFrom(w, events[..|events| - 1]), events[|events| - 1], RunFrom(w, events));
    }
  }

  lemma AcceptedGrow(w: World, e: Event, v: World)
    requires v == Step(w, e)
    ensures w.accepted.Keys <= v.accepted.Keys
  {}

  lemma AfterRace(v: World, rotated: bool, after: seq<Event>, t: string)
    requires Inv(v) && Fate(v, t, rotated) && t in v.owner && t in v.accepted
    ensures var u := Step(v, Seen(t));
            Answers(RunFrom(u, after).db, t, Invalid) <==> rotated || RotatedLate(u, after, t)
  {
    var u := Step(v, Seen(t));
    assert TokenInv(v, t) && ClientInv(v, v.owner[t]);
    MachineFate(v, Seen(t), u, t, rotated);
    MachineKeeps(v, Seen(t), u);
    FateDecides(u, t, rotated);
    if rotated {
      InvalidForever(u, after, t);
    } else if Sha256(t) in u.db.revoked {
      RevokedForever(u, after, t);
      RevokedNotRotated(u, after, t);
      if RotatedLate(u, after, t) {
        LateIsRotated(u, after, t);
      }
    } else {
      SeenSettles(v, t, u);
      SettledStays(u, after, t);
      SettledFate(u, after, t);
    }
  }

  lemma SeenSettles(v: World, t: string, u: World)
    requires Inv(v) && t in v.owner && t in v.accepted && u == Step(v, Seen(t))
    requires Sha256(t) !in u.db.revoked && Fate(v, t, false)
    ensures t in u.settled && Kept(u, t, false)
  {
    assert TokenInv(v, t) && ClientInv(v, v.owner[t]);
  }

  lemma {:induction false} OwnersStay(w: World, events: seq<Event>, t: string)
    requires t in w.owner
    ensures t in RunFrom(w, events).owner
  {
    if events != [] {
      OwnersStay(w, events[..|events| - 1], t);
      OwnersGrow(RunFrom(w, events[..|events| - 1]), events[|events| - 1], RunFrom(w, events));
    }
  }

  lemma OwnersGrow(w: World, e: Event, v: World)
    requires v == Step(w, e)
    ensures w.owner.Keys <= v.owner.Keys
  {}

  // ---- Dead tokens stay dead ---------------------------------------------------------------------------------------------

  /** A token that was rotated away or revoked is never accepted again. */
  lemma {:induction false} RevokedForever(w: World, events: seq<Event>, t: string)
    requires Inv(w) && Sha256(t) in w.db.revoked
    ensures Answers(RunFrom(w, events).db, t, Uninstall)
  {
    RunKeeps(w, events);
    RevokedGrows(w, events, t);
    RevokedIsNotLive(RunFrom(w, events), t);
  }

  lemma {:induction false} RevokedGrows(w: World, events: seq<Event>, t: string)
    requires Sha256(t) in w.db.revoked
    ensures Sha256(t) in RunFrom(w, events).db.revoked
  {
    if events != [] {
      RevokedGrows(w, events[..|events| - 1], t);
      HistoriesGrow(RunFrom(w, events[..|events| - 1]), events[|events| - 1], RunFrom(w, events));
    }
  }

  predicate Superseded(w: World, t: string) {
    && t in w.owner && Sha256(t) !in w.db.revoked
    && (w.owner[t] in w.db.clients ==> w.db.clients[w.owner[t]].tokenHash != Sha256(t))
  }

  lemma GenerateSuperseded(w: World, id: Id, client: Client, token: string, v: World, t: string)
    requires Superseded(w, t) && token !in w.owner && client.tokenHash == Sha256(token) && v == Generate(w, id, client, token)
    ensures Superseded(v, t)
  {}

  lemma DeleteSuperseded(w: World, ids: set<Id>, v: World, t: string)
    requires Inv(w) && Superseded(w, t) && v == DeleteAll(w, ids)
    ensures Superseded(v, t)
  {
    forall i | i in w.db.clients
      ensures w.db.clients[i].tokenHash != Sha256(t)
    {
      assert ClientInv(w, i);
    }
  }

  lemma RenewSuperseded(w: World, e: Event, v: World, t: string)
    requires Superseded(w, t) && v == StepAdmin(w, e) && (e.Create? || e.Reissue?)
    ensures Superseded(v, t)
  {
    if e.Create? && MayCreate(w, e.id, e.name, e.token) {
      var client := Client(e.name, Sha256(e.token), false, None);
      GenerateSuperseded(w, e.id, client, e.token, Generate(w, e.id, client, e.token), t);
    } else if e.Reissue? && MayReissue(w, e.id, e.token) {
      var client := w.db.clients[e.id].(tokenHash := Sha256(e.token));
      GenerateSuperseded(w, e.id, client, e.token, Generate(w, e.id, client, e.token), t);
    }
  }

  lemma RotateSuperseded(w: World, e: Event, v: World, t: string)
    requires Superseded(w, t) && v == StepAdmin(w, e) && e.Rotate?
    ensures Superseded(v, t)
  {
    if MayRotate(w, e.id, e.token) {
      var client := w.db.clients[e.id].(tokenHash := Sha256(e.token));
      GenerateSuperseded(Leave(w, e.id), e.id, client, e.token, Generate(Leave(w, e.id), e.id, client, e.token), t);
    }
  }

  lemma AdminSuperseded(w: World, e: Event, v: World, t: string)
    requires Inv(w) && Superseded(w, t) && v == StepAdmin(w, e)
    ensures Superseded(v, t)
  {
    match e
    case Create(_, _, _, _, _, _) => RenewSuperseded(w, e, v, t);
    case Reissue(_, _, _, _, _) => RenewSuperseded(w, e, v, t);
    case Rotate(_, _, _, _, _) => RotateSuperseded(w, e, v, t);
    case Delete(id) =>
      if id in w.db.clients {
        assert TokenHashes(w.db.clients, {id}) == {w.db.clients[id].tokenHash};
        DeleteSuperseded(w, {id}, v, t);
      }
    case FactoryReset => DeleteSuperseded(w, w.db.clients.Keys, v, t);
    case _ =>
  }

  lemma MachineSuperseded(w: World, e: Event, v: World, t: string)
    requires Superseded(w, t) && v == StepMachine(w, e)
    ensures Superseded(v, t)
  {}

  lemma SupersededStep(w: World, e: Event, v: World, t: string)
    requires Inv(w) && Superseded(w, t) && v == Step(w, e)
    ensures Superseded(v, t)
  {
    AdminSuperseded(w, e, StepAdmin(w, e), t);
    MachineSuperseded(StepAdmin(w, e), e, v, t);
  }

  lemma {:induction false} InvalidForever(w: World, events: seq<Event>, t: string)
    requires Inv(w) && t in w.owner && Answers(w.db, t, Invalid)
    ensures Answers(RunFrom(w, events).db, t, Invalid)
    ensures Superseded(RunFrom(w, events), t)
  {
    RunKeeps(w, events);
    if events != [] {
      InvalidForever(w, events[..|events| - 1], t);
      RunKeeps(w, events[..|events| - 1]);
      SupersededStep(RunFrom(w, events[..|events| - 1]), events[|events| - 1], RunFrom(w, events), t);
    }
    var v := RunFrom(w, events);
    forall i | i in v.db.clients
      ensures v.db.clients[i].tokenHash != Sha256(t)
    {
      assert ClientInv(v, i);
    }
  }

  // ---- Enrollment codes -----------------------------------------------------------------------------------------------------

  /** A code is exchanged at most once, whatever else happens. */
  lemma ExchangedAtMostOnce(events: seq<Event>, code: string)
    ensures Run(events).exchanged[code] <= 1
    ensures forall now :: Run(events).exchanged[code] == 1 ==> Redeem(Run(events).db.codes, code, now).None?
  {
    Reached(events);
    assert CodeInv(Run(events), code);
  }

  /**
   What an outstanding code is good for: the token it yields is accepted, as the client it
   was issued for, if and only if it is that client's newest code and the client's token
   was not rotated since without a code.
   */
  lemma CodeYieldsAcceptedToken(events: seq<Event>, code: string, now: int)
    requires Redeem(Run(events).db.codes, code, now).Some?
    ensures var w := Run(events);
            var row := Redeem(w.db.codes, code, now).value;
            && row.clientId in w.db.clients && row.clientId in w.newest
            && (Answers(w.db, row.token, Accepted(row.clientId)) <==>
                  code == w.newest[row.clientId] && row.clientId !in w.orphaned)
  {
    Reached(events);
    var w := Run(events);
    var row := Redeem(w.db.codes, code, now).value;
    assert CodeInv(w, code) && ClientInv(w, row.clientId);
    forall i | i in w.db.clients
      ensures w.db.clients[i].tokenHash == Sha256(row.token) ==> i == row.clientId
    {
      assert ClientInv(w, i);
    }
  }

  // ---- Who gets a token ------------------------------------------------------------------------------------------------------

  predicate HasCode(w: World, t: string) {
    exists c :: c in w.issued && w.issued[c].token == t
  }

  predicate Unique(w: World, c: string, d: string) {
    c in w.issued && d in w.issued && w.issued[c].token == w.issued[d].token ==> c == d
  }

  lemma GenerateUnique(w: World, id: Id, client: Client, token: string, code: string, codeOk: bool, now: int, v: World,
                       c: string, d: string)
    requires Inv(w) && token !in w.owner && Unique(w, c, d)
    requires v == Renew(w, id, client, token, code, codeOk, now)
    ensures Unique(v, c, d)
    ensures v.issued == w.issued || (code !in w.issued && v.issued == w.issued[code := Issue(id, token)])
  {
    assert CodeInv(w, c) && CodeInv(w, d);
  }

  /** The codes there are stay as they are, and a new one is for a token that no one had. */
  ghost predicate Issues(w: World, v: World) {
    && (forall x :: x in w.issued ==> x in v.issued && v.issued[x] == w.issued[x])
    && (forall x :: x in v.issued && x !in w.issued ==> v.issued[x].token !in w.owner)
  }

  lemma RotateIssues(w: World, id: Id, token: string, code: string, codeOk: bool, now: int, v: World, c: string, d: string)
    requires Inv(w) && Unique(w, c, d) && v == StepAdmin(w, Rotate(id, token, code, codeOk, now))
    ensures Unique(v, c, d) && Issues(w, v)
  {
    if MayRotate(w, id, token) {
      var u := Leave(w, id);
      ClearedKeeps(w, u.cleared, u);
      GenerateUnique(u, id, w.db.clients[id].(tokenHash := Sha256(token)), token, code, codeOk, now, v, c, d);
    }
  }

  lemma RenewIssues(w: World, e: Event, v: World, c: string, d: string)
    requires Inv(w) && Unique(w, c, d) && v == StepAdmin(w, e) && (e.Create? || e.Reissue?)
    ensures Unique(v, c, d) && Issues(w, v)
  {
    if e.Create? && MayCreate(w, e.id, e.name, e.token) {
      GenerateUnique(w, e.id, Client(e.name, Sha256(e.token), false, None), e.token, e.code, e.codeOk, e.now, v, c, d);
    } else if e.Reissue? && MayReissue(w, e.id, e.token) {
      GenerateUnique(w, e.id, w.db.clients[e.id].(tokenHash := Sha256(e.token)), e.token, e.code, e.codeOk, e.now, v, c, d);
    }
  }

  /** Codes are only ever issued for a token generated in the same step. */
  lemma AdminIssues(w: World, e: Event, v: World, c: string, d: string)
    requires Inv(w) && Unique(w, c, d) && v == StepAdmin(w, e)
    ensures Unique(v, c, d) && Issues(w, v)
  {
    match e
    case Create(_, _, _, _, _, _) => RenewIssues(w, e, v, c, d);
    case Reissue(_, _, _, _, _) => RenewIssues(w, e, v, c, d);
    case Rotate(id, token, code, codeOk, now) => RotateIssues(w, id, token, code, codeOk, now, v, c, d);
    case _ =>
  }

  lemma MachineIssues(w: World, e: Event, v: World)
    requires v == StepMachine(w, e)
    ensures v.issued == w.issued
  {}

  /** Over every run two codes with the same token are the same code. */
  lemma {:induction false} CodesAreUnique(events: seq<Event>, c: string, d: string)
    ensures Unique(Run(events), c, d)
  {
    if events != [] {
      var front, e := events[..|events| - 1], events[|events| - 1];
      CodesAreUnique(front, c, d);
      Reached(front);
      AdminIssues(Run(front), e, StepAdmin(Run(front), e), c, d);
      MachineIssues(StepAdmin(Run(front), e), e, Run(events));
    }
  }

  /** An exchange that consumes the code, answered or not. */
  predicate ConsumesAt(w: World, e: Event, code: string, readOk: bool) {
    e.Exchange? && e.code == code && e.readOk == readOk && Redeem(w.db.codes, code, e.now).Some?
  }

  predicate Consumed(events: seq<Event>, code: string, readOk: bool) {
    Happened(Genesis, events, (w: World, e: Event) => ConsumesAt(w, e, code, readOk))
  }

  lemma ConsumeStep(w: World, e: Event, v: World, code: string)
    requires v == Step(w, e)
    ensures v.exchanged[code] == w.exchanged[code] + if ConsumesAt(w, e, code, true) || ConsumesAt(w, e, code, false) then 1 else 0
  {
    AdminExchanges(w, e, StepAdmin(w, e));
    if e.Exchange? {
      ExchangeConsumes(w, e, v, code);
    }
  }

  lemma ExchangeConsumes(w: World, e: Event, v: World, code: string)
    requires e.Exchange? && v == StepMachine(w, e)
    ensures v.exchanged[code] == w.exchanged[code] + if ConsumesAt(w, e, code, true) || ConsumesAt(w, e, code, false) then 1 else 0
  {}

  lemma AdminExchanges(w: World, e: Event, v: World)
    requires v == StepAdmin(w, e)
    ensures v.exchanged == w.exchanged && v.handed == w.handed
  {}

  /** What a step hands out: the token of the code it exchanges, if the exchange is answered. */
  lemma HandStep(w: World, e: Event, v: World, t: string)
    requires Inv(w) && v == Step(w, e)
    ensures v.handed[t] == w.handed[t]
            || (e.Exchange? && ConsumesAt(w, e, e.code, true) && e.code in w.issued && w.issued[e.code].token == t
                && v.handed[t] == w.handed[t] + 1)
    ensures e.Exchange? && ConsumesAt(w, e, e.code, true) && e.code in w.issued && w.issued[e.code].token == t ==>
              v.handed[t] == w.handed[t] + 1
  {
    AdminExchanges(w, e, StepAdmin(w, e));
    if e.Exchange? {
      assert CodeInv(w, e.code);
      ExchangeHands(w, e, v, t);
    }
  }

  lemma ExchangeHands(w: World, e: Event, v: World, t: string)
    requires e.Exchange? && v == StepMachine(w, e)
    ensures v.handed[t] == w.handed[t] + if ConsumesAt(w, e, e.code, true) && w.db.codes[Sha256(e.code)].token == t then 1 else 0
  {}

  /** No token is handed out that never was in a code. */
  lemma {:induction false} HandedHasCode(events: seq<Event>, t: string)
    ensures Run(events).handed[t] > 0 ==> HasCode(Run(events), t)
  {
    if events != [] {
      var front, e := events[..|events| - 1], events[|events| - 1];
      HandedHasCode(front, t);
      Reached(front);
      HandStep(Run(front), e, Run(events), t);
      IssuedStay(Run(front), e, Run(events), t);
    }
  }

  lemma IssuedStay(w: World, e: Event, v: World, t: string)
    requires Inv(w) && v == Step(w, e)
    ensures HasCode(w, t) ==> HasCode(v, t)
    ensures Issues(w, v)
  {
    var any: string := "";
    AdminIssues(w, e, StepAdmin(w, e), any, any);
    MachineIssues(StepAdmin(w, e), e, v);
    if HasCode(w, t) {
      var c :| c in w.issued && w.issued[c].token == t;
      assert c in v.issued && v.issued[c].token == t;
    }
  }

  /** The account of one code: consumed as often as handed out or lost, its token handed out only by it. */
  predicate CodeFate(w: World, c: string, handed: bool, lost: bool) {
    if c !in w.issued then !handed && !lost
    else
      && !(handed && lost)
      && w.exchanged[c] == (if handed || lost then 1 else 0)
      && w.handed[w.issued[c].token] == (if handed then 1 else 0)
  }

  lemma CodeFateStep(events: seq<Event>, e: Event, v: World, c: string, handed: bool, lost: bool)
    requires CodeFate(Run(events), c, handed, lost) && v == Step(Run(events), e)
    ensures CodeFate(v, c, handed || ConsumesAt(Run(events), e, c, true), lost || ConsumesAt(Run(events), e, c, false))
  {
    var w := Run(events);
    Reached(events);
    assert CodeInv(w, c);
    ConsumeStep(w, e, v, c);
    if c in w.issued {
      var t := w.issued[c].token;
      IssuedStay(w, e, v, t);
      HandStep(w, e, v, t);
      if e.Exchange? {
        CodesAreUnique(events, c, e.code);
      }
    } else if c in v.issued {
      NewlyIssued(events, e, v, c);
    }
  }

  /** A code just issued is for a token no one was ever given. */
  lemma NewlyIssued(events: seq<Event>, e: Event, v: World, c: string)
    requires v == Step(Run(events), e) && c !in Run(events).issued && c in v.issued
    ensures !e.Exchange? && v.handed[v.issued[c].token] == 0 && v.exchanged[c] == 0
  {
    var w := Run(events);
    Reached(events);
    var t := v.issued[c].token;
    IssuedStay(w, e, v, t);
    HandedHasCode(events, t);
    forall d | d in w.issued ensures w.issued[d].token in w.owner {
      assert CodeInv(w, d);
    }
    assert CodeInv(w, c);
    HandStep(w, e, v, t);
    ConsumeStep(w, e, v, c);
  }

  lemma {:induction false} RunCodeFate(events: seq<Event>, c: string)
    ensures CodeFate(Run(events), c, Consumed(events, c, true), Consumed(events, c, false))
  {
    if events != [] {
      var front, e := events[..|events| - 1], events[|events| - 1];
      RunCodeFate(front, c);
      CodeFateStep(front, e, Run(events), c, Consumed(front, c, true), Consumed(front, c, false));
      HappenedSnoc(Genesis, front, e, (x: World, y: Event) => ConsumesAt(x, y, c, true));
      HappenedSnoc(Genesis, front, e, (x: World, y: Event) => ConsumesAt(x, y, c, false));
      assert front + [e] == events;
    }
  }

  /** Over every run a token is handed out at most once. */
  lemma HandedAtMostOnce(events: seq<Event>, t: string)
    ensures Run(events).handed[t] <= 1
  {
    HandedHasCode(events, t);
    if HasCode(Run(events), t) {
      var c :| c in Run(events).issued && Run(events).issued[c].token == t;
      RunCodeFate(events, c);
    }
  }

  /**
   The deletion of a code is committed before its client's row is read. A code is burnt -
   consumed, while its token was handed to nobody, by this code or any other - if and only
   if the read failed in the exchange that consumed it.
   */
  lemma BurntExactlyIfReadFailed(events: seq<Event>, code: string)
    requires code in Run(events).issued
    ensures var w := Run(events);
            && (w.exchanged[code] == 1 && w.handed[w.issued[code].token] == 0 <==> Consumed(events, code, false))
            && (w.handed[w.issued[code].token] == 1 <==> Consumed(events, code, true))
  {
    RunCodeFate(events, code);
  }

  // ---- Runs that go wrong ---------------------------------------------------------------------------------------------

  function Created(id: Id, name: string, token: string, code: string, now: int): World {
    Step(Genesis, Create(id, name, token, code, true, now))
  }

  lemma CreatedState(id: Id, name: string, token: string, code: string, now: int)
    ensures var w := Created(id, name, token, code, now);
            && w == Run([Create(id, name, token, code, true, now)])
            && w.db.clients == map[id := Client(name, Sha256(token), false, None)] && w.db.revoked == {}
            && w.db.codes == map[Sha256(code) := Code(id, token, now + ENROLL_CODE_TTL)]
            && w.owner == map[token := id] && w.current == map[id := token] && w.issued == map[code := Issue(id, token)]
            && w.handed == multiset{} && w.cleared == multiset{}
  {
    RunSnoc(Genesis, [], Create(id, name, token, code, true, now));
    assert [] + [Create(id, name, token, code, true, now)] == [Create(id, name, token, code, true, now)];
  }

  /** What the race below leaves after its first steps. */
  ghost predicate RaceState(w: World, id: Id, c: Client, token: string) {
    && w.db.clients == map[id := c] && w.db.revoked == {}
    && token in w.accepted && w.accepted[token] == id
  }

  lemma RaceAccepted(id: Id, name: string, token: string, code: string, now: int, w: World)
    requires w == Step(Created(id, name, token, code, now), Accept(token))
    ensures RaceState(w, id, Client(name, Sha256(token), false, None), token) && w.owner == map[token := id]
  {
    CreatedState(id, name, token, code, now);
    AcceptedFirst(Created(id, name, token, code, now), id, Client(name, Sha256(token), false, None), token, w);
  }

  lemma RaceRotated(w: World, id: Id, c: Client, token: string, token2: string, code2: string, now: int, v: World)
    requires RaceState(w, id, c, token) && w.owner == map[token := id] && !c.lastSeen && c.tokenHash == Sha256(token)
    requires token != token2 && v == Step(w, Reissue(id, token2, code2, true, now))
    ensures RaceState(v, id, c.(tokenHash := Sha256(token2)), token)
  {
    RotatedAway(w, id, c, token2, code2, now, v);
  }

  lemma RaceSeen(w: World, id: Id, c: Client, token: string, v: World)
    requires RaceState(w, id, c, token) && c.tokenHash != Sha256(token) && v == Step(w, Seen(token))
    ensures RaceState(v, id, c.(lastSeen := true), token) && Answers(v.db, token, Invalid)
  {
    MarkedSeen(w, id, c, token, v);
  }

  /**
   A reissue that falls between a machine's acceptance and the update of its last-seen
   time: the machine is connected, and its token is invalid from the next time on.
   */
  lemma ReissueRace(id: Id, name: string, token: string, code: string, token2: string, code2: string, now: int)
    returns (w: World)
    requires token != token2
    ensures w == Run([Create(id, name, token, code, true, now), Accept(token), Reissue(id, token2, code2, true, now), Seen(token)])
    ensures token in w.accepted && Answers(w.db, token, Invalid)
    ensures id in w.db.clients && w.db.clients[id].lastSeen
  {
    var c := Client(name, Sha256(token), false, None);
    RunFour(Create(id, name, token, code, true, now), Accept(token), Reissue(id, token2, code2, true, now), Seen(token));
    w := RaceWorlds(id, name, token, code, token2, code2, now);
  }

  lemma RaceWorlds(id: Id, name: string, token: string, code: string, token2: string, code2: string, now: int)
    returns (w: World)
    requires token != token2
    ensures w == Step(Step(Step(Created(id, name, token, code, now), Accept(token)), Reissue(id, token2, code2, true, now)), Seen(token))
    ensures RaceState(w, id, Client(name, Sha256(token2), true, None), token) && Answers(w.db, token, Invalid)
  {
    var c := Client(name, Sha256(token), false, None);
    w := Step(Created(id, name, token, code, now), Accept(token));
    RaceAccepted(id, name, token, code, now, w);
    var v := Step(w, Reissue(id, token2, code2, true, now));
    RaceRotated(w, id, c, token, token2, code2, now, v);
    w := Step(v, Seen(token));
    RaceSeen(v, id, c.(tokenHash := Sha256(token2)), token, w);
  }

  lemma RunFour(e1: Event, e2: Event, e3: Event, e4: Event)
    ensures Run([e1, e2, e3, e4]) == Step(Step(Step(Step(Genesis, e1), e2), e3), e4)
  {
    RunConcat(Genesis, [e1, e2], [e3, e4]);
    RunTwo(Genesis, e1, e2);
    RunTwo(Run([e1, e2]), e3, e4);
    assert [e1, e2] + [e3, e4] == [e1, e2, e3, e4];
  }

  lemma RunTwo(w: World, e1: Event, e2: Event)
    ensures RunFrom(w, [e1, e2]) == Step(Step(w, e1), e2)
  {
    RunSnoc(w, [], e1);
    RunSnoc(w, [e1], e2);
    assert [] + [e1] == [e1] && [e1] + [e2] == [e1, e2];
  }

  lemma AcceptedFirst(w: World, id: Id, c: Client, token: string, v: World)
    requires w.db.clients == map[id := c] && c.tokenHash == Sha256(token) && w.owner == map[token := id]
    requires v == Step(w, Accept(token))
    ensures v == w.(accepted := w.accepted[token := id])
  {}

  lemma RotatedAway(w: World, id: Id, c: Client, token2: string, code2: string, now: int, v: World)
    requires w.db.clients == map[id := c] && !c.lastSeen && token2 !in w.owner && c.tokenHash != Sha256(token2)
    requires v == Step(w, Reissue(id, token2, code2, true, now))
    ensures v.db.clients == map[id := c.(tokenHash := Sha256(token2))]
    ensures v.accepted == w.accepted && v.db.revoked == w.db.revoked
  {
    assert MayReissue(w, id, token2);
    var rotated := Generate(w, id, c.(tokenHash := Sha256(token2)), token2);
    RotatedClients(w, id, c, token2, rotated);
    ReissueIs(w, id, token2, code2, now, v);
  }

  lemma RotatedClients(w: World, id: Id, c: Client, token2: string, v: World)
    requires w.db.clients == map[id := c] && v == Generate(w, id, c.(tokenHash := Sha256(token2)), token2)
    ensures v.db.clients == map[id := c.(tokenHash := Sha256(token2))]
  {}

  lemma ReissueIs(w: World, id: Id, token2: string, code2: string, now: int, v: World)
    requires MayReissue(w, id, token2) && v == Step(w, Reissue(id, token2, code2, true, now))
    ensures v == Renew(w, id, w.db.clients[id].(tokenHash := Sha256(token2)), token2, code2, true, now)
  {}

  lemma MarkedSeen(w: World, id: Id, c: Client, token: string, v: World)
    requires w.db.clients == map[id := c] && token in w.accepted && w.accepted[token] == id && v == Step(w, Seen(token))
    ensures v.db.clients == map[id := c.(lastSeen := true)] && v.accepted == w.accepted && v.db.revoked == w.db.revoked
  {}

  // The check of a reissue, then a machine that connects and is marked as seen, then the rest of the reissue.

  lemma Checked(w: World, id: Id, c: Client, v: World)
    requires w.db.clients == map[id := c] && !c.lastSeen && v == Step(w, Check(id))
    ensures v == w.(cleared := w.cleared + multiset{id})
  {}

  lemma SeenInTime(w: World, id: Id, c: Client, token: string, v: World)
    requires w.db.clients == map[id := c] && c.tokenHash == Sha256(token)
    requires token in w.accepted && w.accepted[token] == id && v == Step(w, Seen(token))
    ensures v.db.clients == map[id := c.(lastSeen := true)] && token in v.settled
    ensures v.cleared == w.cleared && v.owner == w.owner && v.db.revoked == w.db.revoked
  {}

  lemma RotatedTooLate(w: World, id: Id, c: Client, token2: string, code2: string, now: int, v: World)
    requires w.db.clients == map[id := c] && id in w.cleared && token2 !in w.owner && c.tokenHash != Sha256(token2)
    requires v == Step(w, Rotate(id, token2, code2, true, now))
    ensures v.db.clients == map[id := c.(tokenHash := Sha256(token2))]
    ensures v.settled == w.settled && v.db.revoked == w.db.revoked
  {
    assert MayRotate(w, id, token2);
    RotatedClients(Leave(w, id), id, c, token2, Generate(Leave(w, id), id, c.(tokenHash := Sha256(token2)), token2));
    RotateIs(w, id, token2, code2, now, v);
  }

  lemma RotateIs(w: World, id: Id, token2: string, code2: string, now: int, v: World)
    requires MayRotate(w, id, token2) && v == Step(w, Rotate(id, token2, code2, true, now))
    ensures v == Renew(Leave(w, id), id, w.db.clients[id].(tokenHash := Sha256(token2)), token2, code2, true, now)
  {}

  function LateEvents(id: Id, name: string, token: string, code: string, token2: string, code2: string, now: int): seq<Event> {
    [Create(id, name, token, code, true, now), Check(id), Accept(token), Seen(token)]
    + [Rotate(id, token2, code2, true, now)]
  }

  lemma BeforeRotation(id: Id, name: string, token: string, code: string, now: int, w: World)
    requires w == Step(Step(Step(Created(id, name, token, code, now), Check(id)), Accept(token)), Seen(token))
    ensures w.db.clients == map[id := Client(name, Sha256(token), true, None)] && token in w.settled
    ensures id in w.cleared && w.owner == map[token := id] && w.db.revoked == {}
  {
    var c := Client(name, Sha256(token), false, None);
    var w1 := Created(id, name, token, code, now);
    CreatedState(id, name, token, code, now);
    var w2 := Step(w1, Check(id));
    Checked(w1, id, c, w2);
    var w3 := Step(w2, Accept(token));
    AcceptedFirst(w2, id, c, token, w3);
    SeenInTime(w3, id, c, token, w);
  }

  lemma TakenTooLate(w: World, id: Id, c: Client, token: string, token2: string, code2: string, now: int, v: World)
    requires w.db.clients == map[id := c] && c.tokenHash == Sha256(token) && token in w.settled && token != token2
    requires id in w.cleared && w.owner == map[token := id] && w.db.revoked == {}
    requires v == Step(w, Rotate(id, token2, code2, true, now))
    ensures token in v.settled && Answers(v.db, token, Invalid)
  {
    RotatedTooLate(w, id, c, token2, code2, now, v);
    NobodyElse(v.db, id, c.(tokenHash := Sha256(token2)), token);
  }

  lemma NobodyElse(db: Tables, id: Id, c: Client, token: string)
    requires db.clients == map[id := c] && c.tokenHash != Sha256(token) && db.revoked == {}
    ensures Answers(db, token, Invalid)
  {}

  /** A machine marked as seen in time, and its token taken by a reissue that had looked before. */
  lemma LateReissue(id: Id, name: string, token: string, code: string, token2: string, code2: string, now: int)
    requires token != token2
    ensures var w := Run(LateEvents(id, name, token, code, token2, code2, now));
            token in w.settled && Answers(w.db, token, Invalid)
  {
    var w := FirstFour(id, name, token, code, now);
    RunSnoc(Genesis, [Create(id, name, token, code, true, now), Check(id), Accept(token), Seen(token)],
            Rotate(id, token2, code2, true, now));
    TakenTooLate(w, id, Client(name, Sha256(token), true, None), token, token2, code2, now,
                 Run(LateEvents(id, name, token, code, token2, code2, now)));
  }

  lemma FirstFour(id: Id, name: string, token: string, code: string, now: int) returns (w: World)
    ensures w == Run([Create(id, name, token, code, true, now), Check(id), Accept(token), Seen(token)])
    ensures w.db.clients == map[id := Client(name, Sha256(token), true, None)] && token in w.settled
    ensures id in w.cleared && w.owner == map[token := id] && w.db.revoked == {}
  {
    RunFour(Create(id, name, token, code, true, now), Check(id), Accept(token), Seen(token));
    w := Step(Step(Step(Created(id, name, token, code, now), Check(id)), Accept(token)), Seen(token));
    BeforeRotation(id, name, token, code, now, w);
  }

  /** A reissue whose code cannot be stored: the client's latest code still redeems, for a token that is invalid. */
  lemma ReissueWithoutCode(id: Id, name: string, token: string, code: string, token2: string, code2: string, now: int)
    requires token != token2
    ensures var events := [Create(id, name, token, code, true, now), Reissue(id, token2, code2, false, now)];
            var w := Run(events);
            && Redeem(w.db.codes, code, now) == Some(Code(id, token, now + ENROLL_CODE_TTL))
            && w.newest == map[id := code] && Answers(w.db, token, Invalid)
  {
    var e1, e2 := Create(id, name, token, code, true, now), Reissue(id, token2, code2, false, now);
    CreatedState(id, name, token, code, now);
    RunSnoc(Genesis, [e1], e2);
    assert [e1] + [e2] == [e1, e2];
    var w := Run([e1, e2]);
    assert w.db.clients == map[id := Client(name, Sha256(token2), false, None)];
  }

  /** An exchange whose last read fails: the code is gone, its token, still the client's, was handed to nobody, and no other code has it. */
  lemma LostExchange(id: Id, name: string, token: string, code: string, now: int)
    ensures var w := Run([Create(id, name, token, code, true, now), Exchange(code, now, false)]);
            && Redeem(w.db.codes, code, now).None? && w.handed[token] == 0
            && (forall c :: c in w.issued && w.issued[c].token == token ==> c == code)
            && Answers(w.db, token, Accepted(id)) && !w.db.clients[id].lastSeen
  {
    CreatedState(id, name, token, code, now);
    RunTwo(Genesis, Create(id, name, token, code, true, now), Exchange(code, now, false));
    Burn(Created(id, name, token, code, now), code, now, Run([Create(id, name, token, code, true, now), Exchange(code, now, false)]));
  }

  lemma Burn(w: World, code: string, now: int, v: World)
    requires Redeem(w.db.codes, code, now).Some? && v == Step(w, Exchange(code, now, false))
    ensures Redeem(v.db.codes, code, now).None? && v.handed == w.handed && v.issued == w.issued && v.db.clients == w.db.clients
  {}
}
