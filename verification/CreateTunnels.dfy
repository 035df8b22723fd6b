/**
 Creating tunnels through the API: a port is a number or a range, a range makes one
 tunnel per port, and either all of them are created or none.
 */
module CreateTunnels {
  import opened Wrappers
  import opened Store
  import Text

  // ---- Port specifications ------------------------------------------------------------------------

  /** The JSON value of a port field. Num is an integer literal that fits 64 bits. */
  datatype Json = Missing | Null | Num(value: int) | Str(text: string) | OtherJson

  function Range(start: int, end: int): (r: seq<int>)
    ensures |r| == if start <= end then end - start + 1 else 0
    ensures forall i :: 0 <= i < |r| ==> r[i] == start + i
  {
    seq(if start <= end then end - start + 1 else 0, i => start + i)
  }

  /** The ports a text stands for. */
  function TextPorts(text: string): Option<seq<int>> {
    var s := Text.TrimSpace(text);
    match Text.Cut(s, '-')
    case None => (match Text.Atoi(s) case None => None case Some(n) => Some([n]))
    case Some((before, after)) =>
      var start, end := Text.Atoi(Text.TrimSpace(before)), Text.Atoi(Text.TrimSpace(after));
      if start.None? || end.None? || start.value > end.value then None else Some(Range(start.value, end.value))
  }

  function Ports(data: Json): Option<seq<int>> {
    match data
    case Missing => Some([])      // the field keeps its zero value
    case Null => Some([0])        // null leaves the number at zero and reports no error
    case Num(n) => Some([n])
    case Str(text) => TextPorts(text)
    case OtherJson => None
  }

  /** portSpec.UnmarshalJSON, for a field that is present. */
  method UnmarshalPortSpec(data: Json) returns (values: Option<seq<int>>)
    ensures values == Ports(data)
  {
    match data
    case Missing => values := Some([]);
    case Null => values := Some([0]);
    case Num(n) => values := Some([n]);
    case OtherJson => values := None;
    case Str(text) => values := UnmarshalText(text);
  }

  method UnmarshalText(text: string) returns (values: Option<seq<int>>)
    ensures values == TextPorts(text)
  {
    var s := Text.TrimSpace(text);
    var parts := Text.Cut(s, '-');
    if parts.None? {
      var n := Text.Atoi(s);
      return if n.None? then None else Some([n.value]);
    }
    var start := Text.Atoi(Text.TrimSpace(parts.value.0));
    var end := Text.Atoi(Text.TrimSpace(parts.value.1));
    if start.None? || end.None? || start.value > end.value {
      return None;
    }
    var list := Expand(start.value, end.value);
    values := Some(list);
  }

  method Expand(start: int, end: int) returns (list: seq<int>)
    requires start <= end
    ensures list == Range(start, end)
  {
    list := [];
    var v := start;
    while v <= end
      invariant start <= v <= end + 1
      invariant |list| == v - start && forall i :: 0 <= i < |list| ==> list[i] == start + i
    {
      list := list + [v];
      v := v + 1;
    }
  }

  /** A range written out, with any white space around its parts, stands for exactly a..b. */
  lemma RangeRoundTrip(a: nat, b: nat, w0: string, w1: string, w2: string, w3: string)
    requires a <= b <= Text.MAX_INT64
    requires Text.AllSpace(w0) && Text.AllSpace(w1) && Text.AllSpace(w2) && Text.AllSpace(w3)
    ensures TextPorts(w0 + ((Text.Decimal(a) + w1) + "-" + (w2 + Text.Decimal(b))) + w3) == Some(Range(a, b))
  {
    DecimalPadded(a, w1);
    DecimalPadded(b, w2);
    PaddedRange(Text.Decimal(a) + w1, w2 + Text.Decimal(b), w0, w3, a, b);
  }

  lemma DecimalPadded(n: nat, pad: string)
    requires Text.AllSpace(pad)
    ensures Text.TrimSpace(Text.Decimal(n) + pad) == Text.Decimal(n)
    ensures Text.TrimSpace(pad + Text.Decimal(n)) == Text.Decimal(n)
    ensures !Text.IsSpace((Text.Decimal(n) + pad)[0]) && '-' !in Text.Decimal(n) + pad
    ensures !Text.IsSpace((pad + Text.Decimal(n))[|pad + Text.Decimal(n)| - 1])
  {
    DecimalIsTight(n);
    Padded(Text.Decimal(n), pad);
    NoDash(pad);
  }

  lemma Padded(s: string, pad: string)
    requires Text.AllSpace(pad) && s != "" && !Text.IsSpace(s[0]) && !Text.IsSpace(s[|s| - 1])
    ensures Text.TrimSpace(s + pad) == s && Text.TrimSpace(pad + s) == s
  {
    Text.TrimPadding("", s, pad);
    assert "" + s + pad == s + pad;
    Text.TrimPadding(pad, s, "");
    assert pad + s + "" == pad + s;
  }

  lemma NoDash(pad: string)
    requires Text.AllSpace(pad)
    ensures '-' !in pad
  {
    assert !Text.IsSpace('-');
  }

  lemma PaddedRange(before: string, after: string, w0: string, w3: string, a: nat, b: nat)
    requires Text.AllSpace(w0) && Text.AllSpace(w3) && a <= b <= Text.MAX_INT64
    requires before != "" && after != "" && !Text.IsSpace(before[0]) && !Text.IsSpace(after[|after| - 1])
    requires '-' !in before && Text.TrimSpace(before) == Text.Decimal(a) && Text.TrimSpace(after) == Text.Decimal(b)
    ensures TextPorts(w0 + (before + "-" + after) + w3) == Some(Range(a, b))
  {
    Text.TrimPadding(w0, before + "-" + after, w3);
    CutRange(w0 + (before + "-" + after) + w3, before, after, a, b);
  }

  lemma CutRange(text: string, before: string, after: string, a: nat, b: nat)
    requires Text.TrimSpace(text) == before + "-" + after && '-' !in before
    requires Text.TrimSpace(before) == Text.Decimal(a) && Text.TrimSpace(after) == Text.Decimal(b)
    requires a <= b <= Text.MAX_INT64
    ensures TextPorts(text) == Some(Range(a, b))
  {
    Text.CutAt(before, '-', after);
    Text.AtoiDecimal(a);
    Text.AtoiDecimal(b);
  }

  lemma DecimalIsTight(n: nat)
    ensures !Text.IsSpace(Text.Decimal(n)[0]) && !Text.IsSpace(Text.Decimal(n)[|Text.Decimal(n)| - 1])
    ensures '-' !in Text.Decimal(n)
  {
    assert Text.AllDigits(Text.Decimal(n));
  }

  lemma NumberRoundTrip(n: nat, before: string, after: string)
    requires n <= Text.MAX_INT64 && Text.AllSpace(before) && Text.AllSpace(after)
    ensures TextPorts(before + Text.Decimal(n) + after) == Some([n])
  {
    DecimalIsTight(n);
    Text.TrimPadding(before, Text.Decimal(n), after);
    Text.AtoiDecimal(n);
  }

  /** Whatever is accepted is a nonempty run of consecutive numbers, and no text stands for a negative one alone. */
  lemma AcceptedPorts(text: string)
    requires TextPorts(text).Some?
    ensures TextPorts(text).value != []
    ensures TextPorts(text).value == Range(TextPorts(text).value[0], TextPorts(text).value[|TextPorts(text).value| - 1])
    ensures |TextPorts(text).value| == 1 && '-' !in Text.TrimSpace(text) ==> TextPorts(text).value[0] >= 0
  {
    var s := Text.TrimSpace(text);
    match Text.Cut(s, '-')
    case None =>
      NotNegative(s);
      RangeEnds(Text.Atoi(s).value, Text.Atoi(s).value);
      assert TextPorts(text).value == [Text.Atoi(s).value];
      assert Range(Text.Atoi(s).value, Text.Atoi(s).value) == [Text.Atoi(s).value];
    case Some((before, after)) =>
      RangeEnds(Text.Atoi(Text.TrimSpace(before)).value, Text.Atoi(Text.TrimSpace(after)).value);
  }

  lemma RangeEnds(start: int, end: int)
    requires start <= end
    ensures var r := Range(start, end); r != [] && r[0] == start && r[|r| - 1] == end
  {}

  lemma NotNegative(s: string)
    requires '-' !in s
    ensures Text.Atoi(s).Some? ==> Text.Atoi(s).value >= 0
  {}

  // ---- The request -----------------------------------------------------------------------------------

  datatype Request = Request(clientId: string, name: string, protocol: string, localHost: string,
                             localPort: Json, publicPort: Json)

  datatype Reply = BadRequest | NotFound | PortInUse | InsertRefused | Created | Panicked

  function Host(req: Request): string {
    if Text.TrimSpace(req.localHost) == "" then "127.0.0.1" else Text.TrimSpace(req.localHost)
  }

  function Protocol(req: Request): string {
    if req.protocol == "" then "tcp" else req.protocol
  }

  function BaseName(req: Request): string {
    if Text.TrimSpace(req.name) == "" then Host(req) else Text.TrimSpace(req.name)
  }

  predicate IsRange(local: seq<int>, public: seq<int>) {
    |local| > 1 || |public| > 1
  }

  predicate PortsOk(local: seq<int>, public: seq<int>) {
    && (IsRange(local, public) ==> |local| == |public|)
    && (forall i :: 0 <= i < |local| ==> 1 <= local[i] <= 65535)
    && (forall i :: 0 <= i < |public| ==> 0 <= public[i] <= 65535)
    && (IsRange(local, public) ==> forall i :: 0 <= i < |public| ==> public[i] != 0)
  }

  /** Whether the request passes every check that does not ask the database. */
  predicate Acceptable(req: Request) {
    && Ports(req.localPort).Some? && Ports(req.publicPort).Some?
    && req.clientId != ""
    && (Protocol(req) == "tcp" || Protocol(req) == "udp")
    && PortsOk(Ports(req.localPort).value, Ports(req.publicPort).value)
  }

  /** The tunnels the request describes: local and public ports paired in order. */
  function Planned(req: Request, local: seq<int>, public: seq<int>, i: nat): Tunnel
    requires PortsOk(local, public) && i < |local| && public != []
  {
    var port := PublicPort(public, i);
    var name := if IsRange(local, public) then BaseName(req) + "-" + Text.Decimal(port) else BaseName(req);
    NewTunnel(Uuid(req.clientId), name, Host(req), local[i], port, Protocol(req))
  }

  // ---- What changed in the table ------------------------------------------------------------------------

  function Elements(ids: seq<Id>): set<Id> {
    set i | 0 <= i < |ids| :: ids[i]
  }

  ghost predicate Distinct(ids: seq<Id>) {
    forall i, j :: 0 <= i < j < |ids| ==> ids[i] != ids[j]
  }

  /** `after` is `before` with exactly the tunnels `extra` added. */
  ghost predicate Extends(before: Tables, after: Tables, extra: set<Id>) {
    && after == before.(tunnels := after.tunnels)
    && after.tunnels.Keys == before.tunnels.Keys + extra
    && extra !! before.tunnels.Keys
    && forall id :: id in before.tunnels ==> after.tunnels[id] == before.tunnels[id]
  }

  lemma NothingAdded(before: Tables, after: Tables)
    requires Extends(before, after, {})
    ensures after == before
  {
    assert after.tunnels == before.tunnels;
  }

  lemma AllSamplesKept(samples: seq<Sample>, kept: set<Id>)
    requires forall k :: 0 <= k < |samples| ==> samples[k].tunnelId in kept
    ensures SamplesOf(samples, kept) == samples
  {
    if samples != [] {
      AllSamplesKept(samples[..|samples| - 1], kept);
      assert samples == samples[..|samples| - 1] + [samples[|samples| - 1]];
    }
  }

  /** Adding a row, and taking an added row away again: its deletion cascades to no sample. */
  lemma AddOne(before: Tables, mid: Tables, extra: set<Id>, id: Id, t: Tunnel)
    requires Extends(before, mid, extra) && id !in mid.tunnels
    ensures Extends(before, mid.(tunnels := mid.tunnels[id := t]), extra + {id})
  {}

  lemma RemoveOne(before: Tables, mid: Tables, extra: set<Id>, id: Id, after: Tables)
    requires ForeignKeys(before) && Extends(before, mid, extra) && id in extra && after == RemoveTunnel(mid, id)
    ensures Extends(before, after, extra - {id})
  {
    AllSamplesKept(mid.samples, after.tunnels.Keys);
  }

  // ---- The handler ----------------------------------------------------------------------------------------

  method CheckPorts(local: seq<int>, public: seq<int>) returns (ok: bool)
    ensures ok <==> PortsOk(local, public)
    ensures ok <==>
              && (forall i :: 0 <= i < |local| ==> 0 < local[i] < 0x1_0000)
              && (forall i :: 0 <= i < |public| ==> 0 <= public[i] < 0x1_0000)
              && ((|local| <= 1 && |public| <= 1) || (|local| == |public| && forall i :: 0 <= i < |public| ==> public[i] > 0))
  {
    var isRange := |local| > 1 || |public| > 1;
    if isRange && |local| != |public| {
      return false;
    }
    for i := 0 to |local|
      invariant forall k :: 0 <= k < i ==> 1 <= local[k] <= 65535
    {
      if local[i] < 1 || local[i] > 65535 {
        return false;
      }
    }
    for i := 0 to |public|
      invariant forall k :: 0 <= k < i ==> 0 <= public[k] <= 65535 && (isRange ==> public[k] != 0)
    {
      if public[i] != 0 && (public[i] < 1 || public[i] > 65535) {
        return false;
      }
      if isRange && public[i] == 0 {
        return false;
      }
    }
    ok := true;
  }

  /** Whether a port can be bound right now: `busy` are the ports of the protocol that cannot. */
  method ProbePublicPort(protocol: string, port: int, busy: set<int>) returns (ok: bool)
    ensures ok <==> port !in busy
  {
    ok := port !in busy;
  }

  function PublicPort(public: seq<int>, i: nat): int
    requires public != [] && (|public| > 1 ==> i < |public|)
  {
    if |public| > 1 then public[i] else public[0]
  }

  lemma HeadOf(ids: seq<Id>, i: nat)
    requires Distinct(ids) && i < |ids|
    ensures Elements(ids[i..]) == {ids[i]} + Elements(ids[i + 1..])
    ensures ids[i] !in Elements(ids[i + 1..]) && ids[i] !in Elements(ids[..i])
    ensures Elements(ids[..i + 1]) == Elements(ids[..i]) + {ids[i]}
  {
    assert ids[i..] == [ids[i]] + ids[i + 1..];
    assert ids[..i + 1] == ids[..i] + [ids[i]];
  }

  /** The rollback closure before its i-th deletion. */
  ghost predicate Rolling(before: Tables, now: Tables, created: seq<Id>, i: nat, stuck: set<Id>)
    requires i <= |created|
  {
    stuck <= Elements(created[..i]) && Extends(before, now, Elements(created[i..]) + stuck) && WellFormed(now)
  }

  /** The rollback closure: every created tunnel is deleted again; `stuck` are those whose deletion fails. */
  method Rollback(db: DB, created: seq<Id>, ghost before: Tables) returns (stuck: set<Id>)
    requires WellFormed(before) && WellFormed(db.State())
    requires Distinct(created) && Extends(before, db.State(), Elements(created))
    modifies db
    ensures stuck <= Elements(created) && Extends(before, db.State(), stuck) && WellFormed(db.State())
    ensures db.up ==> stuck == {}
  {
    stuck := {};
    RollingStarts(before, db.State(), created);
    for i := 0 to |created|
      invariant Rolling(before, db.State(), created, i, stuck) && (db.up ==> stuck == {})
    {
      stuck := RollbackStep(db, created, i, stuck, before);
    }
    RollingEnds(before, db.State(), created, stuck);
  }

  lemma RollingStarts(before: Tables, now: Tables, created: seq<Id>)
    requires WellFormed(now) && Extends(before, now, Elements(created))
    ensures Rolling(before, now, created, 0, {})
  {
    assert created[0..] == created && Elements(created) + {} == Elements(created);
  }

  lemma RollingEnds(before: Tables, now: Tables, created: seq<Id>, stuck: set<Id>)
    requires Rolling(before, now, created, |created|, stuck)
    ensures stuck <= Elements(created) && Extends(before, now, stuck)
  {
    assert created[..|created|] == created;
    assert Elements(created[|created|..]) + stuck == stuck;
  }

  method RollbackStep(db: DB, created: seq<Id>, i: nat, stuck: set<Id>, ghost before: Tables) returns (now: set<Id>)
    requires WellFormed(before) && Distinct(created) && i < |created|
    requires Rolling(before, db.State(), created, i, stuck)
    modifies db
    ensures Rolling(before, db.State(), created, i + 1, now)
    ensures db.up ==> now == stuck
  {
    HeadOf(created, i);
    now := RollbackOne(db, created[i], Elements(created[i + 1..]), stuck, before);
  }

  lemma RolledBack(before: Tables, mid: Tables, id: Id, rest: set<Id>, stuck: set<Id>, after: Tables)
    requires WellFormed(before) && WellFormed(mid) && id !in rest && id !in stuck
    requires Extends(before, mid, {id} + rest + stuck) && after == RemoveTunnel(mid, id)
    ensures Extends(before, after, rest + stuck) && WellFormed(after)
  {
    Without(id, rest, stuck);
    RemoveOne(before, mid, {id} + rest + stuck, id, after);
    RemoveTunnelKeeps(mid, id);
  }

  lemma Without(id: Id, rest: set<Id>, stuck: set<Id>)
    requires id !in rest && id !in stuck
    ensures {id} + rest + stuck - {id} == rest + stuck
  {}

  method RollbackOne(db: DB, id: Id, ghost rest: set<Id>, stuck: set<Id>, ghost before: Tables) returns (now: set<Id>)
    requires WellFormed(before) && WellFormed(db.State()) && id !in rest && id !in stuck
    requires Extends(before, db.State(), {id} + rest + stuck)
    modifies db
    ensures db.up ==> now == stuck
    ensures (now == stuck || now == stuck + {id}) && Extends(before, db.State(), rest + now) && WellFormed(db.State())
  {
    ghost var mid := db.State();
    var ok := db.DeleteTunnel(id);
    if ok {
      RolledBack(before, mid, id, rest, stuck, db.State());
      now := stuck;
    } else {
      now := stuck + {id};
      assert {id} + rest + stuck == rest + now;
    }
  }

  /** What the loop of handleCreateTunnel has done after some turns. */
  ghost predicate Made(before: Tables, after: Tables, created: seq<Id>, req: Request, local: seq<int>, public: seq<int>)
    requires PortsOk(local, public) && public != []
  {
    && Distinct(created) && |created| <= |local| && Extends(before, after, Elements(created))
    && forall k :: 0 <= k < |created| ==> after.tunnels[created[k]] == Planned(req, local, public, k)
  }

  lemma ElementsSnoc(ids: seq<Id>, id: Id)
    ensures Elements(ids + [id]) == Elements(ids) + {id}
  {
    assert (ids + [id])[|ids|] == id;
    forall i | 0 <= i < |ids|
      ensures ids[i] in Elements(ids + [id])
    {
      assert (ids + [id])[i] == ids[i];
    }
  }

  lemma DistinctSnoc(ids: seq<Id>, id: Id)
    requires Distinct(ids) && id !in Elements(ids)
    ensures Distinct(ids + [id])
  {
    assert forall i :: 0 <= i < |ids| ==> ids[i] in Elements(ids);
  }

  lemma MadeOneMore(before: Tables, mid: Tables, created: seq<Id>, req: Request, local: seq<int>, public: seq<int>,
                    id: Id, after: Tables)
    requires PortsOk(local, public) && public != [] && Made(before, mid, created, req, local, public)
    requires |created| < |local| && id !in mid.tunnels
    requires after == mid.(tunnels := mid.tunnels[id := Planned(req, local, public, |created|)])
    ensures Made(before, after, created + [id], req, local, public)
  {
    var t := Planned(req, local, public, |created|);
    AddOne(before, mid, Elements(created), id, t);
    ElementsSnoc(created, id);
    DistinctSnoc(created, id);
    forall k | 0 <= k < |created| + 1
      ensures after.tunnels[(created + [id])[k]] == Planned(req, local, public, k)
    {
      RowAfter(mid, created, id, t, k);
    }
  }

  lemma RowAfter(mid: Tables, created: seq<Id>, id: Id, t: Tunnel, k: nat)
    requires Elements(created) <= mid.tunnels.Keys && id !in mid.tunnels && k <= |created|
    ensures (created + [id])[k] in mid.tunnels[id := t]
    ensures mid.tunnels[id := t][(created + [id])[k]] == if k == |created| then t else mid.tunnels[created[k]]
  {
    if k < |created| {
      assert created[k] in Elements(created);
    }
  }

  predicate Busy(public: seq<int>, busy: set<int>, i: nat)
    requires public != [] && (|public| > 1 ==> i < |public|)
  {
    PublicPort(public, i) != 0 && PublicPort(public, i) in busy
  }

  /** Whether the k-th tunnel's port is left by the tunnels there are and by the ones before it. */
  ghost predicate Free(tunnels: map<Id, Tunnel>, public: seq<int>, k: nat)
    requires public != [] && (|public| > 1 ==> k < |public|)
  {
    var port := PublicPort(public, k);
    port == 0 || (port > 0 && PortFree(tunnels, port) && forall j :: 0 <= j < k ==> PublicPort(public, j) != port)
  }

  /** The ports of the first n tunnels can be bound, and no tunnel has them. */
  ghost predicate AllFree(tunnels: map<Id, Tunnel>, public: seq<int>, busy: set<int>, n: nat)
    requires public != [] && (|public| > 1 ==> n <= |public|)
  {
    forall k :: 0 <= k < n ==> !Busy(public, busy, k) && Free(tunnels, public, k)
  }

  /** The ids that will be generated are new. */
  ghost predicate NewIds(tunnels: map<Id, Tunnel>, newId: nat -> Id, n: nat) {
    && (forall i: nat :: i < n ==> newId(i) !in tunnels)
    && forall i: nat, j: nat :: i < j < n ==> newId(i) != newId(j)
  }

  lemma NewIdsMeans(tunnels: map<Id, Tunnel>, newId: nat -> Id, n: nat)
    ensures NewIds(tunnels, newId, n) <==>
              forall j: nat :: j < n ==> newId(j) !in tunnels && forall i: nat :: i < j ==> newId(j) != newId(i)
  {}

  /** One turn of the loop: probe the port if there is one, then insert the row. */
  method CreateOne(db: DB, req: Request, local: seq<int>, public: seq<int>, busy: set<int>, id: Id, i: nat)
    returns (reply: Reply)
    requires WellFormed(db.State()) && PortsOk(local, public) && i < |local| && public != []
    modifies db
    ensures reply.PortInUse? || reply.InsertRefused? || reply.Created?
    ensures reply.Created? ==>
              && CanInsertTunnel(old(db.State()), id, Planned(req, local, public, i))
              && db.State() == old(db.State()).(tunnels := old(db.tunnels)[id := Planned(req, local, public, i)])
    ensures !reply.Created? ==> db.State() == old(db.State())
    ensures WellFormed(db.State())
    ensures reply.PortInUse? <==> Busy(public, busy, i)
    ensures db.up && reply.InsertRefused? ==> !CanInsertTunnel(old(db.State()), id, Planned(req, local, public, i))
  {
    var port := PublicPort(public, i);
    var name := BaseName(req);
    if IsRange(local, public) {
      name := BaseName(req) + "-" + Text.Decimal(port);
    }
    if port != 0 {
      var free := ProbePublicPort(Protocol(req), port, busy);
      if !free {
        return PortInUse;
      }
    }
    ghost var mid := db.State();
    var ok := db.CreateTunnel(id, Uuid(req.clientId), name, Host(req), local[i], port, Protocol(req));
    if ok {
      InsertTunnelKeeps(mid, id, Planned(req, local, public, i));
    }
    reply := if ok then Created else InsertRefused;
  }

  /** The creating loop; whatever it has created is rolled back at the first failure. */
  method CreateAll(db: DB, req: Request, local: seq<int>, public: seq<int>, busy: set<int>, newId: nat -> Id)
    returns (reply: Reply, created: seq<Id>, stuck: set<Id>)
    requires WellFormed(db.State()) && PortsOk(local, public) && local != [] && public != []
    modifies db
    ensures reply.PortInUse? || reply.InsertRefused? || reply.Created?
    ensures reply.Created? ==> |created| == |local| && Making(old(db.State()), db.State(), created, req, local, public, busy, newId)
    ensures !reply.Created? ==> |created| < |local| && Extends(old(db.State()), db.State(), stuck)
    ensures reply.Created? || db.up ==> stuck == {}
    ensures WellFormed(db.State())
    ensures reply.PortInUse? ==> Busy(public, busy, |created|)
    ensures db.up && reply.InsertRefused? && Uuid(req.clientId) in old(db.clients) && NewIds(old(db.tunnels), newId, |local|) ==>
              !Free(old(db.tunnels), public, |created|)
  {
    ghost var before := db.State();
    created, stuck, reply := [], {}, Created;
    for i := 0 to |local|
      invariant reply.Created? && |created| == i && Making(before, db.State(), created, req, local, public, busy, newId)
    {
      reply, created := CreateNext(db, req, local, public, busy, newId, created, before);
      if !reply.Created? {
        stuck := Rollback(db, created, before);
        return;
      }
    }
  }

  ghost predicate Making(before: Tables, now: Tables, created: seq<Id>, req: Request, local: seq<int>, public: seq<int>,
                         busy: set<int>, newId: nat -> Id)
    requires PortsOk(local, public) && public != []
  {
    && Made(before, now, created, req, local, public) && WellFormed(now)
    && AllFree(before.tunnels, public, busy, |created|)
    && (forall k :: 0 <= k < |created| ==> created[k] == newId(k))
  }

  method CreateNext(db: DB, req: Request, local: seq<int>, public: seq<int>, busy: set<int>, newId: nat -> Id,
                    created: seq<Id>, ghost before: Tables) returns (reply: Reply, now: seq<Id>)
    requires PortsOk(local, public) && public != [] && |created| < |local|
    requires Making(before, db.State(), created, req, local, public, busy, newId)
    modifies db
    ensures reply.PortInUse? || reply.InsertRefused? || reply.Created?
    ensures reply.Created? ==> |now| == |created| + 1 && Making(before, db.State(), now, req, local, public, busy, newId)
    ensures !reply.Created? ==> now == created && db.State() == old(db.State())
    ensures reply.PortInUse? ==> Busy(public, busy, |created|)
    ensures db.up && reply.InsertRefused? && Uuid(req.clientId) in before.clients && NewIds(before.tunnels, newId, |local|) ==>
              !Free(before.tunnels, public, |created|)
  {
    ghost var mid := db.State();
    var id := newId(|created|);
    reply := CreateOne(db, req, local, public, busy, id, |created|);
    now := created;
    FreeNow(before, mid, created, req, local, public);
    if reply.Created? {
      MakingOneMore(before, mid, created, req, local, public, busy, newId, id, db.State());
      now := created + [id];
    } else if NewIds(before.tunnels, newId, |local|) {
      StillNew(before, mid, created, newId, |local|);
    }
  }

  /** The next port is left in the table as it is now exactly if it was left before, by all tunnels made since. */
  lemma FreeNow(before: Tables, mid: Tables, created: seq<Id>, req: Request, local: seq<int>, public: seq<int>)
    requires PortsOk(local, public) && public != [] && |created| < |local|
    requires Made(before, mid, created, req, local, public)
    ensures PortFree(mid.tunnels, Planned(req, local, public, |created|).publicPort) <==> Free(before.tunnels, public, |created|)
  {
    var port := PublicPort(public, |created|);
    if port != 0 {
      if j :| 0 <= j < |created| && PublicPort(public, j) == port {
        assert created[j] in Elements(created);
        assert mid.tunnels[created[j]].publicPort == port;
      }
      MadePorts(before, mid, created, req, local, public);
    }
  }

  lemma MadePorts(before: Tables, mid: Tables, created: seq<Id>, req: Request, local: seq<int>, public: seq<int>)
    requires PortsOk(local, public) && public != [] && Made(before, mid, created, req, local, public)
    ensures forall id :: id in before.tunnels ==> id in mid.tunnels && mid.tunnels[id].publicPort == before.tunnels[id].publicPort
    ensures forall id :: id in mid.tunnels && id !in before.tunnels ==>
              exists j :: 0 <= j < |created| && mid.tunnels[id].publicPort == PublicPort(public, j)
  {
    forall id | id in mid.tunnels && id !in before.tunnels
      ensures exists j :: 0 <= j < |created| && mid.tunnels[id].publicPort == PublicPort(public, j)
    {
      assert id in Elements(created);
      var j :| 0 <= j < |created| && created[j] == id;
      assert mid.tunnels[id] == Planned(req, local, public, j);
    }
  }

  lemma StillNew(before: Tables, mid: Tables, created: seq<Id>, newId: nat -> Id, n: nat)
    requires NewIds(before.tunnels, newId, n) && |created| < n && Extends(before, mid, Elements(created))
    requires forall k :: 0 <= k < |created| ==> created[k] == newId(k)
    ensures newId(|created|) !in mid.tunnels
  {}

  lemma MakingOneMore(before: Tables, mid: Tables, created: seq<Id>, req: Request, local: seq<int>, public: seq<int>,
                      busy: set<int>, newId: nat -> Id, id: Id, after: Tables)
    requires PortsOk(local, public) && public != [] && |created| < |local|
    requires Making(before, mid, created, req, local, public, busy, newId) && id == newId(|created|)
    requires id !in mid.tunnels && WellFormed(after)
    requires !Busy(public, busy, |created|) && Free(before.tunnels, public, |created|)
    requires after == mid.(tunnels := mid.tunnels[id := Planned(req, local, public, |created|)])
    ensures Making(before, after, created + [id], req, local, public, busy, newId)
  {
    MadeOneMore(before, mid, created, req, local, public, id, after);
    FreeOneMore(before.tunnels, public, busy, |created|);
    IdsOneMore(created, newId, id);
  }

  lemma FreeOneMore(tunnels: map<Id, Tunnel>, public: seq<int>, busy: set<int>, n: nat)
    requires public != [] && (|public| > 1 ==> n < |public|) && AllFree(tunnels, public, busy, n)
    requires !Busy(public, busy, n) && Free(tunnels, public, n)
    ensures AllFree(tunnels, public, busy, n + 1)
  {}

  lemma IdsOneMore(created: seq<Id>, newId: nat -> Id, id: Id)
    requires id == newId(|created|) && forall k :: 0 <= k < |created| ==> created[k] == newId(k)
    ensures forall k :: 0 <= k < |created + [id]| ==> (created + [id])[k] == newId(k)
  {}

  /** The ports a request lists are all different, so only the tunnels there are can be in the way. */
  lemma FreeMeans(req: Request, tunnels: map<Id, Tunnel>, k: nat)
    requires Acceptable(req) && !EmptyList(req) && k < |Ports(req.localPort).value|
    ensures var public := Ports(req.publicPort).value;
            Free(tunnels, public, k) <==> PublicPort(public, k) == 0 || PortFree(tunnels, PublicPort(public, k))
  {
    PortsAreConsecutive(req.publicPort);
    FreeConsecutive(tunnels, Ports(req.publicPort).value, k);
  }

  lemma PortsAreConsecutive(data: Json)
    requires Ports(data).Some?
    ensures forall j :: 0 <= j < |Ports(data).value| ==> Ports(data).value[j] == Ports(data).value[0] + j
  {
    if data.Str? {
      AcceptedPorts(data.text);
    }
  }

  lemma FreeConsecutive(tunnels: map<Id, Tunnel>, public: seq<int>, k: nat)
    requires public != [] && (|public| > 1 ==> k < |public|) && PublicPort(public, k) >= 0 && (|public| == 1 ==> k == 0)
    requires forall j :: 0 <= j < |public| ==> public[j] == public[0] + j
    ensures Free(tunnels, public, k) <==> PublicPort(public, k) == 0 || PortFree(tunnels, PublicPort(public, k))
  {}

  /** Every port but 0 can be bound and is on no tunnel. */
  predicate Available(tunnels: map<Id, Tunnel>, public: seq<int>, busy: set<int>) {
    forall k :: 0 <= k < |public| && public[k] > 0 ==>
      public[k] !in busy && forall i :: i in tunnels ==> tunnels[i].publicPort != public[k]
  }

  lemma AvailableMeans(req: Request, tunnels: map<Id, Tunnel>, busy: set<int>)
    requires Acceptable(req) && !EmptyList(req)
    ensures Available(tunnels, Ports(req.publicPort).value, busy)
       <==> AllFree(tunnels, Ports(req.publicPort).value, busy, |Ports(req.localPort).value|)
  {
    var public, n := Ports(req.publicPort).value, |Ports(req.localPort).value|;
    forall k | 0 <= k < n
      ensures Free(tunnels, public, k) <==> PublicPort(public, k) == 0 || PortFree(tunnels, PublicPort(public, k))
      ensures PublicPort(public, k) == public[k]
    {
      FreeMeans(req, tunnels, k);
    }
  }

  /**
   handleCreateTunnel. A request it cannot take leaves every table as it was; so does a
   port that cannot be bound or a row that is refused at any position of a range, as far
   as the rollback's own deletions succeed (`stuck` are the ones that do not); success
   adds exactly the planned tunnels, in order, under new ids. While the database works the
   request succeeds exactly if it is acceptable, its client exists, and every port is free.
   With a single port and an empty list beside it the handler indexes out of range.
   */
  method HandleCreateTunnel(db: DB, req: Request, busy: set<int>, newId: nat -> Id)
    returns (reply: Reply, created: seq<Id>, stuck: set<Id>)
    requires WellFormed(db.State())
    modifies db
    ensures WellFormed(db.State())
    ensures stuck == {} && !reply.Created? ==> db.State() == old(db.State())
    ensures !reply.Created? ==> Extends(old(db.State()), db.State(), stuck)
    ensures stuck != {} ==> reply.PortInUse? || reply.InsertRefused?
    ensures db.up ==> stuck == {}
    ensures reply.BadRequest? ==> !Acceptable(req)
    ensures !Acceptable(req) ==> reply.BadRequest? || reply.NotFound?
    ensures db.up && reply.NotFound? ==> Uuid(req.clientId) !in old(db.clients)
    ensures reply.Panicked? ==> Acceptable(req) && EmptyList(req)
    ensures Acceptable(req) && EmptyList(req) ==> reply.Panicked? || reply.NotFound?
    ensures reply.PortInUse? || reply.InsertRefused? || reply.Created? ==>
              Acceptable(req) && !EmptyList(req) && Uuid(req.clientId) in old(db.clients)
    ensures reply.PortInUse? ==>
              |created| < |Ports(req.localPort).value| && Busy(Ports(req.publicPort).value, busy, |created|)
    ensures reply.Created? ==>
              && |created| == |Ports(req.localPort).value|
              && Making(old(db.State()), db.State(), created, req, Ports(req.localPort).value, Ports(req.publicPort).value,
                        busy, newId)
    ensures db.up && Acceptable(req) && !EmptyList(req) && Uuid(req.clientId) in old(db.clients)
            && NewIds(old(db.tunnels), newId, |Ports(req.localPort).value|) ==>
              (reply.Created? <==> Available(old(db.tunnels), Ports(req.publicPort).value, busy))
  {
    created, stuck := [], {};
    var local := UnmarshalPortSpec(req.localPort);
    var public := UnmarshalPortSpec(req.publicPort);
    if local.None? || public.None? || req.clientId == "" {
      return BadRequest, [], {};
    }
    var found := db.Exec();
    if !found || Uuid(req.clientId) !in db.clients {
      return NotFound, [], {};
    }
    if Protocol(req) != "tcp" && Protocol(req) != "udp" {
      return BadRequest, [], {};
    }
    var ok := CheckPorts(local.value, public.value);
    if !ok {
      return BadRequest, [], {};
    }
    if |local.value| == 0 || |public.value| == 0 {
      return Panicked, [], {};
    }
    AvailableMeans(req, db.tunnels, busy);
    reply, created, stuck := CreateAll(db, req, local.value, public.value, busy, newId);
    if !reply.Created? && stuck == {} {
      NothingAdded(old(db.State()), db.State());
    }
  }

  /** A port field that is absent beside a single port or another absent one. */
  predicate EmptyList(req: Request)
    requires Acceptable(req)
  {
    Ports(req.localPort).value == [] || Ports(req.publicPort).value == []
  }

  /** Only a field the request leaves out can be empty. */
  lemma EmptyMeansMissing(req: Request)
    requires Acceptable(req)
    ensures EmptyList(req) <==> req.localPort.Missing? || req.publicPort.Missing?
  {
    if req.localPort.Str? {
      AcceptedPorts(req.localPort.text);
    }
    if req.publicPort.Str? {
      AcceptedPorts(req.publicPort.text);
    }
  }

  /** What a range request asks for: port a+k forwarded from public port c+k, named after the latter. */
  lemma RangePairing(req: Request, local: seq<int>, public: seq<int>, a: nat, b: nat, c: nat, d: nat, k: nat)
    requires local == Range(a, b) && public == Range(c, d)
    requires Ports(req.localPort) == Some(local) && Ports(req.publicPort) == Some(public)
    requires Acceptable(req) && a < b && k <= b - a
    ensures b - a == d - c && c > 0
    ensures var t := Planned(req, local, public, k);
            && t.localPort == a + k && t.publicPort == c + k
            && t.name == BaseName(req) + "-" + Text.Decimal(c + k)
            && t.clientId.text == req.clientId && t.localHost == Host(req) && t.protocol == Protocol(req)
            && t.enabled && t.limit.None? && t.hostname == [] && !t.proxyProtocol && t.bytesIn == t.bytesOut == 0
  {
    assert local[k] == a + k;
    assert |public| == b - a + 1 && public[k] == c + k && public[0] == c;
  }

  /** A request that leaves out a port field passes every check and reaches the index into an empty list. */
  lemma MissingPortPanics()
    ensures var req := Request("c", "", "tcp", "", Num(25565), Missing); Acceptable(req) && EmptyList(req)
    ensures var req := Request("c", "", "tcp", "", Missing, Num(25565)); Acceptable(req) && EmptyList(req)
  {}

  /** A request with a single port on each side: one tunnel between just these, under the plain name. */
  lemma SinglePairing(req: Request, local: seq<int>, public: seq<int>, a: int, c: int)
    requires local == [a] && public == [c] && PortsOk(local, public)
    ensures var t := Planned(req, local, public, 0);
            && t.localPort == a && t.publicPort == c && t.name == BaseName(req)
            && t.clientId.text == req.clientId && t.localHost == Host(req) && t.protocol == Protocol(req)
            && t.enabled && t.limit.None? && t.hostname == [] && !t.proxyProtocol && t.bytesIn == t.bytesOut == 0
  {}

  /** What a request leaves blank: the loopback host, the host as name, TCP; the rest is taken without the white space around it. */
  lemma Defaults(req: Request, before: string, text: string, after: string)
    requires Text.AllSpace(before) && Text.AllSpace(after)
    requires text != "" && !Text.IsSpace(text[0]) && !Text.IsSpace(text[|text| - 1])
    ensures req.localHost == before ==> Host(req) == "127.0.0.1"
    ensures req.localHost == before + text + after ==> Host(req) == text
    ensures req.name == before ==> BaseName(req) == Host(req)
    ensures req.name == before + text + after ==> BaseName(req) == text
    ensures Protocol(req) == if req.protocol == "" then "tcp" else req.protocol
  {
    Text.TrimPadding(before, text, after);
    Text.TrimBlank(before);
  }

  /** A number and its text stand for the same port, and null for zero. */
  lemma NumbersAndTexts(n: nat)
    requires n <= Text.MAX_INT64
    ensures Ports(Num(n)) == Ports(Str(Text.Decimal(n))) && Ports(Null) == Ports(Num(0))
  {
    NumberRoundTrip(n, "", "");
    assert "" + Text.Decimal(n) + "" == Text.Decimal(n);
  }
}
