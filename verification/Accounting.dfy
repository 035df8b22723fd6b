/**
 Traffic accounting: bytes are counted in memory as they flow, and a loop adds what is
 new since the last successful flush to the database. Flushes fail, tunnels disappear,
 the process restarts.
 */
module Accounting {
  import opened Wrappers
  import opened Store

  datatype Bytes = Bytes(inbound: int, outbound: int)

  const NoBytes := Bytes(0, 0)

  predicate AtMost(a: Bytes, b: Bytes) {
    a.inbound <= b.inbound && a.outbound <= b.outbound
  }

  /** `total` is `a` and `b` together, in both directions. */
  predicate IsSum(total: Bytes, a: Bytes, b: Bytes) {
    total.inbound == a.inbound + b.inbound && total.outbound == a.outbound + b.outbound
  }

  function Delta(cur: Bytes, prev: Bytes): Bytes {
    Bytes(cur.inbound - prev.inbound, cur.outbound - prev.outbound)
  }

  lemma CatchUp(after: Bytes, before: Bytes, base: Bytes, flushed: Bytes, cur: Bytes)
    requires IsSum(after, before, Delta(cur, flushed)) && IsSum(before, base, flushed)
    ensures IsSum(after, base, cur)
  {}

  lemma StepDelta(after: Bytes, mid: Bytes, before: Bytes, now: Bytes, was: Bytes, cur: Bytes)
    requires IsSum(after, mid, Delta(cur, now)) && Delta(mid, before) == Delta(now, was)
    ensures Delta(after, before) == Delta(cur, was)
  {}

  lemma AtMostTrans(a: Bytes, b: Bytes, c: Bytes)
    requires AtMost(a, b) && AtMost(b, c)
    ensures AtMost(a, c)
  {}

  lemma NothingNew(cur: Bytes, flushed: Bytes)
    requires AtMost(flushed, cur) && Delta(cur, flushed).inbound <= 0 && Delta(cur, flushed).outbound <= 0
    ensures cur == flushed
  {}

  lemma SameAdded(a: Bytes, b: Bytes, x: Bytes, d: Bytes)
    requires IsSum(a, x, d) && IsSum(b, x, d)
    ensures a == b
  {}

  /** A counter that was never touched reads as zero. */
  function Get(m: map<Id, Bytes>, id: Id): Bytes {
    if id in m then m[id] else NoBytes
  }

  function Counted(live: map<Id, Bytes>, id: Id, n: Bytes): map<Id, Bytes> {
    live[id := Bytes(Get(live, id).inbound + n.inbound, Get(live, id).outbound + n.outbound)]
  }

  function Stored(t: Tunnel): Bytes {
    Bytes(t.bytesIn, t.bytesOut)
  }

  // ---- Samples ---------------------------------------------------------------------------------------

  function SumSamples(samples: seq<Sample>, id: Id): Bytes {
    if samples == [] then NoBytes
    else
      var last := samples[|samples| - 1];
      var before := SumSamples(samples[..|samples| - 1], id);
      if last.tunnelId == id then Bytes(before.inbound + last.bytesIn, before.outbound + last.bytesOut) else before
  }

  lemma SumSamplesSnoc(samples: seq<Sample>, x: Sample, id: Id)
    ensures IsSum(SumSamples(samples + [x], id), SumSamples(samples, id),
                  if x.tunnelId == id then Bytes(x.bytesIn, x.bytesOut) else NoBytes)
  {
    assert (samples + [x])[..|samples|] == samples;
  }

  /** Cascading deletes keep every sample of a surviving tunnel. */
  lemma {:induction false} SumSurvivors(samples: seq<Sample>, kept: set<Id>, id: Id)
    requires id in kept
    ensures SumSamples(SamplesOf(samples, kept), id) == SumSamples(samples, id)
  {
    if samples != [] {
      var front, last := samples[..|samples| - 1], samples[|samples| - 1];
      SumSurvivors(front, kept, id);
      if last.tunnelId in kept {
        SumSamplesSnoc(SamplesOf(front, kept), last, id);
      }
    }
  }

  lemma {:induction false} NoSamples(samples: seq<Sample>, id: Id)
    requires forall k :: 0 <= k < |samples| ==> samples[k].tunnelId != id
    ensures SumSamples(samples, id) == NoBytes
  {
    if samples != [] {
      NoSamples(samples[..|samples| - 1], id);
    }
  }

  // ---- What one committed flush does to the numbers -------------------------------------------

  /** `after` is `before` with d more stored for tunnel `id`, sample included. */
  ghost predicate Added(before: Tables, after: Tables, id: Id, d: Bytes) {
    && after.tunnels.Keys == before.tunnels.Keys
    && after.clients == before.clients
    && (forall i :: i in before.tunnels ==>
          IsSum(Stored(after.tunnels[i]), Stored(before.tunnels[i]), if i == id then d else NoBytes))
    && IsSum(SumSamples(after.samples, id), SumSamples(before.samples, id), d)
    && (forall i :: i != id ==> SumSamples(after.samples, i) == SumSamples(before.samples, i))
  }

  lemma AddTrafficAdds(db: Tables, id: Id, d: Bytes)
    requires id in db.tunnels && db.tunnels[id].clientId in db.clients
    ensures Added(db, AddTraffic(db, id, d.inbound, d.outbound), id, d)
  {
    var after := AddTraffic(db, id, d.inbound, d.outbound);
    AddTrafficSameConfig(db, id, d.inbound, d.outbound);
    forall i | i in db.tunnels
      ensures IsSum(Stored(after.tunnels[i]), Stored(db.tunnels[i]), if i == id then d else NoBytes)
    {
      AddTrafficRow(db, id, d.inbound, d.outbound, i);
    }
    SumSamplesSnoc(db.samples, Sample(id, d.inbound, d.outbound), id);
    forall i | i != id
      ensures SumSamples(after.samples, i) == SumSamples(db.samples, i)
    {
      SumSamplesSnoc(db.samples, Sample(id, d.inbound, d.outbound), i);
    }
  }

  // ---- The flush loop -----------------------------------------------------------------------

  class Flusher {
    var liveBytes: map<Id, Bytes>
    var lastFlushed: map<Id, Bytes>

    constructor ()
      ensures liveBytes == map[] && lastFlushed == map[]
    {
      liveBytes, lastFlushed := map[], map[];
    }

    /** A countingReader adds n bytes read from the public side (in) or from the stream (out). */
    method Count(id: Id, n: Bytes)
      modifies this`liveBytes
      ensures liveBytes == Counted(old(liveBytes), id, n)
    {
      var c := Get(liveBytes, id);
      liveBytes := liveBytes[id := Bytes(c.inbound + n.inbound, c.outbound + n.outbound)];
    }

    /** Every stored total has moved by exactly what its lastFlushed moved. */
    static ghost predicate InStep(before: map<Id, Tunnel>, after: map<Id, Tunnel>, was: map<Id, Bytes>, now: map<Id, Bytes>) {
      && after.Keys == before.Keys
      && forall id :: id in before ==>
           Delta(Stored(after[id]), Stored(before[id])) == Delta(Get(now, id), Get(was, id))
    }

    /** Every lastFlushed is as it was or what the snapshot says. */
    static ghost predicate CaughtUp(was: map<Id, Bytes>, now: map<Id, Bytes>, snapshot: map<Id, Bytes>) {
      forall id :: Get(now, id) == Get(was, id) || Get(now, id) == Get(snapshot, id)
    }

    static lemma InStepAfter(before: map<Id, Tunnel>, mid: Tables, after: Tables, was: map<Id, Bytes>,
                             now: map<Id, Bytes>, id: Id, cur: Bytes)
      requires InStep(before, mid.tunnels, was, now)
      requires Added(mid, after, id, Delta(cur, Get(now, id)))
      ensures InStep(before, after.tunnels, was, now[id := cur])
    {
      forall i | i in before
        ensures Delta(Stored(after.tunnels[i]), Stored(before[i])) == Delta(Get(now[id := cur], i), Get(was, i))
      {
        AddedTo(mid, after, id, Delta(cur, Get(now, id)), i);
        StepDelta(Stored(after.tunnels[i]), Stored(mid.tunnels[i]), Stored(before[i]), Get(now, i), Get(was, i),
                  if i == id then cur else Get(now, i));
      }
    }

    /** The tunnel and its client are there. */
    static ghost predicate CanStore(db: Tables, id: Id) {
      id in db.tunnels && db.tunnels[id].clientId in db.clients
    }

    /** One turn of the loop: it stores what is new since the last successful flush, or nothing. */
    method FlushOne(db: DB, id: Id, cur: Bytes) returns (ok: bool)
      modifies this`lastFlushed, db
      ensures ok ==>
                && Added(old(db.State()), db.State(), id, Delta(cur, Get(old(lastFlushed), id)))
                && SameConfig(old(db.tunnels), db.tunnels)
                && lastFlushed == old(lastFlushed)[id := cur]
      ensures !ok ==> db.State() == old(db.State()) && lastFlushed == old(lastFlushed)
      ensures db.up && id in old(db.tunnels) && old(db.tunnels)[id].clientId in old(db.clients) ==>
                AtMost(cur, Get(lastFlushed, id))
    {
      var prev := Get(lastFlushed, id);
      var delta := Delta(cur, prev);
      if delta.inbound <= 0 && delta.outbound <= 0 {
        return false;
      }
      ghost var state := db.State();
      ok := db.AddTunnelTraffic(id, delta.inbound, delta.outbound);
      if ok {
        AddTrafficAdds(state, id, delta);
        AddTrafficSameConfig(state, id, delta.inbound, delta.outbound);
        lastFlushed := lastFlushed[id := cur];
      }
    }

    /** What a tick has done when `rest` of the snapshot is still to be walked. */
    static ghost predicate Ticking(before: Tables, now: Tables, was: map<Id, Bytes>, flushed: map<Id, Bytes>,
                                   snapshot: map<Id, Bytes>, rest: set<Id>, up: bool) {
      && InStep(before.tunnels, now.tunnels, was, flushed) && CaughtUp(was, flushed, snapshot)
      && now.clients == before.clients && SameConfig(before.tunnels, now.tunnels)
      && (up ==> forall id :: id in snapshot && id !in rest && CanStore(before, id) ==> AtMost(snapshot[id], Get(flushed, id)))
    }

    static lemma TickOne(before: Tables, mid: Tables, after: Tables, was: map<Id, Bytes>, flushed: map<Id, Bytes>,
                         snapshot: map<Id, Bytes>, rest: set<Id>, up: bool, id: Id)
      requires Ticking(before, mid, was, flushed, snapshot, rest, up) && id in rest && id in snapshot
      requires Added(mid, after, id, Delta(snapshot[id], Get(flushed, id))) && SameConfig(mid.tunnels, after.tunnels)
      ensures Ticking(before, after, was, flushed[id := snapshot[id]], snapshot, rest - {id}, up)
    {
      InStepAfter(before.tunnels, mid, after, was, flushed, id, snapshot[id]);
    }

    static lemma CanStoreStill(before: Tables, now: Tables, id: Id)
      requires now.clients == before.clients && SameConfig(before.tunnels, now.tunnels) && CanStore(before, id)
      ensures CanStore(now, id)
    {
      assert Config(before.tunnels[id]) == Config(now.tunnels[id]);
    }

    /**
     One tick of trafficFlushLoop: in whatever order the snapshot is walked and whichever
     flushes fail, every stored total moves by exactly what its lastFlushed moves, and
     lastFlushed either stays or catches up with the live counter; while the database works
     it does catch up, for every tunnel that still exists.
     */
    method Tick(db: DB)
      modifies this`lastFlushed, db
      ensures CaughtUp(old(lastFlushed), lastFlushed, liveBytes)
      ensures InStep(old(db.tunnels), db.tunnels, old(lastFlushed), lastFlushed)
      ensures SameConfig(old(db.tunnels), db.tunnels) && db.clients == old(db.clients)
      ensures db.up ==>
                forall id :: id in liveBytes && id in old(db.tunnels) && old(db.tunnels)[id].clientId in old(db.clients) ==>
                  && liveBytes[id].inbound <= Get(lastFlushed, id).inbound
                  && liveBytes[id].outbound <= Get(lastFlushed, id).outbound
    {
      ghost var before, was := db.State(), lastFlushed;
      var snapshot := liveBytes;
      var rest := snapshot.Keys;
      while rest != {}
        invariant rest <= snapshot.Keys && Ticking(before, db.State(), was, lastFlushed, snapshot, rest, db.up)
        decreases |rest|
      {
        var id :| id in rest;
        ghost var mid, flushed := db.State(), lastFlushed;
        if CanStore(before, id) {
          CanStoreStill(before, mid, id);
        }
        var ok := FlushOne(db, id, snapshot[id]);
        if ok {
          TickOne(before, mid, db.State(), was, flushed, snapshot, rest, db.up, id);
        }
        rest := rest - {id};
      }
    }
  }

  // ---- Whole runs --------------------------------------------------------------------------------

  /**
   `live` and `flushed` are the in-memory counters, `snapshot` what the current tick works
   through. `base` is what each tunnel had stored when the process started, `used` every
   tunnel id ever handed out.
   */
  datatype State = State(
    db: Tables, live: map<Id, Bytes>, snapshot: map<Id, Bytes>, flushed: map<Id, Bytes>,
    base: map<Id, Bytes>, used: set<Id>)

  datatype Event =
    | CountIn(id: Id, n: nat)
    | CountOut(id: Id, n: nat)
    | TakeSnapshot
    | Flush(id: Id, ok: bool)            // one turn of the loop; AddTunnelTraffic succeeds or not
    | Create(id: Id, tunnel: Tunnel)
    | Reconfigure(id: Id, tunnel: Tunnel) // anything but counters and owner may change
    | SetClientLimit(clientId: Id, limit: Option<int>)
    | Delete(id: Id)
    | DeleteClients(ids: set<Id>)
    | Restart

  ghost function DoFlush(s: State, id: Id, ok: bool): State {
    if id !in s.snapshot then s
    else
      var delta := Delta(s.snapshot[id], Get(s.flushed, id));
      if delta.inbound <= 0 && delta.outbound <= 0 then s
      else if !ok || id !in s.db.tunnels || s.db.tunnels[id].clientId !in s.db.clients then s
      else s.(db := AddTraffic(s.db, id, delta.inbound, delta.outbound), flushed := s.flushed[id := s.snapshot[id]])
  }

  ghost function Step(s: State, e: Event): State {
    match e
    case CountIn(id, n) =>
      if id in s.used then s.(live := Counted(s.live, id, Bytes(n, 0))) else s
    case CountOut(id, n) =>
      if id in s.used then s.(live := Counted(s.live, id, Bytes(0, n))) else s
    case TakeSnapshot => s.(snapshot := s.live)
    case Flush(id, ok) => DoFlush(s, id, ok)
    case Create(id, t) =>
      if id in s.used || !CanInsertTunnel(s.db, id, t) || Stored(t) != NoBytes then s
      else s.(db := s.db.(tunnels := s.db.tunnels[id := t]), used := s.used + {id})
    case Reconfigure(id, t) =>
      if id in s.db.tunnels && Stored(t) == Stored(s.db.tunnels[id])
         && t.clientId == s.db.tunnels[id].clientId && t.publicPort == s.db.tunnels[id].publicPort
      then s.(db := s.db.(tunnels := s.db.tunnels[id := t])) else s
    case SetClientLimit(clientId, limit) =>
      if clientId in s.db.clients
      then s.(db := s.db.(clients := s.db.clients[clientId := s.db.clients[clientId].(limit := limit)])) else s
    case Delete(id) => s.(db := RemoveTunnel(s.db, id))
    case DeleteClients(ids) => s.(db := RemoveClients(s.db, ids))
    case Restart =>
      s.(live := map[], snapshot := map[], flushed := map[],
         base := map id | id in s.db.tunnels :: Stored(s.db.tunnels[id]))
  }

  /** A process starting on some database. */
  function Boot(db: Tables): State {
    State(db, map[], map[], map[], map id | id in db.tunnels :: Stored(db.tunnels[id]), db.tunnels.Keys)
  }

  ghost function Run(db: Tables, events: seq<Event>): State {
    if events == [] then Boot(db) else Step(Run(db, events[..|events| - 1]), events[|events| - 1])
  }

  // ---- Conservation ------------------------------------------------------------------------------------

  /**
   The books of one tunnel: what it has stored is what it had at process start plus what
   was flushed since, and the sum of its samples; a flush never runs ahead of what was
   counted; an id never handed out has left no trace.
   */
  ghost predicate Balanced(s: State, id: Id) {
    && Books(s.db, s.base, s.flushed, id)
    && Ahead(s.flushed, s.live, s.snapshot, id)
    && (id !in s.used ==> Untouched(s.db, s.base, s.flushed, id))
  }

  ghost predicate Books(db: Tables, base: map<Id, Bytes>, flushed: map<Id, Bytes>, id: Id) {
    id in db.tunnels ==>
      && IsSum(Stored(db.tunnels[id]), Get(base, id), Get(flushed, id))
      && Stored(db.tunnels[id]) == SumSamples(db.samples, id)
  }

  predicate Ahead(flushed: map<Id, Bytes>, live: map<Id, Bytes>, snapshot: map<Id, Bytes>, id: Id) {
    && AtMost(Get(flushed, id), Get(live, id))
    && (id in snapshot ==> AtMost(Get(flushed, id), snapshot[id]) && AtMost(snapshot[id], Get(live, id)))
  }

  ghost predicate Untouched(db: Tables, base: map<Id, Bytes>, flushed: map<Id, Bytes>, id: Id) {
    && id !in db.tunnels
    && Get(flushed, id) == Get(base, id) == SumSamples(db.samples, id) == NoBytes
  }

  // Each of these lemmas takes the state after the step as a parameter of its own.

  lemma FlushKeeps(s: State, flushed: Id, ok: bool, t: State, id: Id)
    requires Balanced(s, id) && t == DoFlush(s, flushed, ok)
    ensures Balanced(t, id)
  {
    if t != s {
      var delta := Delta(s.snapshot[flushed], Get(s.flushed, flushed));
      AddTrafficAdds(s.db, flushed, delta);
      if id == flushed {
        AfterFlush(s, delta, t, id);
      } else {
        AfterOtherFlush(s, flushed, delta, t, id);
      }
    }
  }

  /** The numbers alone, whatever else the transaction did: the tunnel that was flushed ... */
  lemma AfterFlush(s: State, delta: Bytes, t: State, id: Id)
    requires Balanced(s, id) && id in s.snapshot && id in s.db.tunnels
    requires delta == Delta(s.snapshot[id], Get(s.flushed, id)) && Added(s.db, t.db, id, delta)
    requires t == s.(db := t.db, flushed := s.flushed[id := s.snapshot[id]])
    ensures Balanced(t, id)
  {
    AddedTo(s.db, t.db, id, delta, id);
    SameAdded(SumSamples(t.db.samples, id), Stored(t.db.tunnels[id]), Stored(s.db.tunnels[id]), delta);
    CatchUp(Stored(t.db.tunnels[id]), Stored(s.db.tunnels[id]), Get(s.base, id), Get(s.flushed, id), s.snapshot[id]);
    assert Get(t.flushed, id) == s.snapshot[id];
  }

  /** ... and the ones that were not. */
  lemma AfterOtherFlush(s: State, flushed: Id, delta: Bytes, t: State, id: Id)
    requires Balanced(s, id) && id != flushed && Added(s.db, t.db, flushed, delta)
    requires t.db.tunnels.Keys == s.db.tunnels.Keys && flushed in s.snapshot
    requires t == s.(db := t.db, flushed := s.flushed[flushed := s.snapshot[flushed]])
    ensures Balanced(t, id)
  {
    assert Get(t.flushed, id) == Get(s.flushed, id);
    assert SumSamples(t.db.samples, id) == SumSamples(s.db.samples, id);
    if id in s.db.tunnels {
      AddedTo(s.db, t.db, flushed, delta, id);
      SameAdded(Stored(t.db.tunnels[id]), Stored(s.db.tunnels[id]), Stored(s.db.tunnels[id]), NoBytes);
    }
  }

  /** Removing rows with their samples. */
  lemma RemovalKeeps(s: State, t: State, id: Id)
    requires Balanced(s, id) && t == s.(db := t.db)
    requires id in t.db.tunnels ==> id in s.db.tunnels && t.db.tunnels[id] == s.db.tunnels[id]
    requires t.db.samples == SamplesOf(s.db.samples, t.db.tunnels.Keys)
    ensures Balanced(t, id)
  {
    if id in t.db.tunnels {
      SumSurvivors(s.db.samples, t.db.tunnels.Keys, id);
    } else {
      NoSamples(t.db.samples, id);
    }
  }

  lemma CountKeeps(s: State, counted: Id, n: Bytes, t: State, id: Id)
    requires Balanced(s, id) && AtMost(NoBytes, n)
    requires t == s.(live := Counted(s.live, counted, n))
    ensures Balanced(t, id)
  {
    CountedGrows(s.live, counted, n, id);
    AtMostTrans(Get(s.flushed, id), Get(s.live, id), Get(t.live, id));
    if id in s.snapshot {
      AtMostTrans(s.snapshot[id], Get(s.live, id), Get(t.live, id));
    }
  }

  lemma CountedGrows(live: map<Id, Bytes>, counted: Id, n: Bytes, id: Id)
    requires AtMost(NoBytes, n)
    ensures AtMost(Get(live, id), Get(Counted(live, counted, n), id))
  {}

  lemma CreateKeeps(s: State, created: Id, tunnel: Tunnel, t: State, id: Id)
    requires Balanced(s, id) && created !in s.used && Stored(tunnel) == NoBytes
    requires t.db == s.db.(tunnels := s.db.tunnels[created := tunnel])
    requires t == s.(db := t.db, used := s.used + {created})
    ensures Balanced(t, id)
  {}

  lemma ReconfigureKeeps(s: State, i: Id, tunnel: Tunnel, t: State, id: Id)
    requires Balanced(s, id) && i in s.db.tunnels && Stored(tunnel) == Stored(s.db.tunnels[i])
    requires t.db == s.db.(tunnels := s.db.tunnels[i := tunnel]) && t == s.(db := t.db)
    ensures Balanced(t, id)
  {}

  lemma RestartKeeps(s: State, t: State, id: Id)
    requires Balanced(s, id) && t == Step(s, Restart)
    ensures Balanced(t, id)
  {}

  lemma StepKeeps(s: State, e: Event, t: State, id: Id)
    requires Balanced(s, id) && t == Step(s, e)
    ensures Balanced(t, id)
  {
    match e
    case CountIn(i, n) => if i in s.used { CountKeeps(s, i, Bytes(n, 0), t, id); }
    case CountOut(i, n) => if i in s.used { CountKeeps(s, i, Bytes(0, n), t, id); }
    case TakeSnapshot =>
    case Flush(i, ok) => FlushKeeps(s, i, ok, t, id);
    case Create(i, tunnel) => if t != s { CreateKeeps(s, i, tunnel, t, id); }
    case Reconfigure(i, tunnel) => if t != s { ReconfigureKeeps(s, i, tunnel, t, id); }
    case SetClientLimit(clientId, limit) =>
    case Delete(i) => if i in s.db.tunnels { RemovalKeeps(s, t, id); }
    case DeleteClients(ids) => RemovalKeeps(s, t, id);
    case Restart => RestartKeeps(s, t, id);
  }

  lemma ReconfigureWellFormed(db: Tables, id: Id, t: Tunnel)
    requires WellFormed(db) && id in db.tunnels
    requires t.clientId == db.tunnels[id].clientId && t.publicPort == db.tunnels[id].publicPort
    ensures WellFormed(db.(tunnels := db.tunnels[id := t]))
  {}

  lemma LimitWellFormed(db: Tables, clientId: Id, limit: Option<int>)
    requires WellFormed(db) && clientId in db.clients
    ensures WellFormed(db.(clients := db.clients[clientId := db.clients[clientId].(limit := limit)]))
  {}

  lemma StepKeepsWellFormed(s: State, e: Event)
    requires WellFormed(s.db)
    ensures WellFormed(Step(s, e).db)
  {
    match e
    case Flush(id, ok) =>
      if id in s.snapshot && id in s.db.tunnels {
        var delta := Delta(s.snapshot[id], Get(s.flushed, id));
        AddTrafficKeeps(s.db, id, delta.inbound, delta.outbound);
      }
    case Create(id, t) => if CanInsertTunnel(s.db, id, t) { InsertTunnelKeeps(s.db, id, t); }
    case Reconfigure(id, t) => if Step(s, e) != s { ReconfigureWellFormed(s.db, id, t); }
    case SetClientLimit(clientId, limit) => if Step(s, e) != s { LimitWellFormed(s.db, clientId, limit); }
    case Delete(id) => RemoveTunnelKeeps(s.db, id);
    case DeleteClients(ids) => RemoveClientsKeeps(s.db, ids);
    case _ =>
  }

  /** A database a process may start on. */
  ghost predicate Sound(db: Tables) {
    && WellFormed(db)
    && forall id :: id in db.tunnels ==> SumSamples(db.samples, id) == Stored(db.tunnels[id])
  }

  lemma BootBalanced(db: Tables, id: Id)
    requires Sound(db)
    ensures Balanced(Boot(db), id)
  {
    if id !in db.tunnels {
      NoSamples(db.samples, id);
    }
  }

  lemma {:induction false} RunKeeps(db: Tables, events: seq<Event>, id: Id)
    requires Sound(db)
    ensures Balanced(Run(db, events), id) && WellFormed(Run(db, events).db)
  {
    if events == [] {
      BootBalanced(db, id);
    } else {
      var before := events[..|events| - 1];
      RunKeeps(db, before, id);
      StepKeeps(Run(db, before), events[|events| - 1], Run(db, events), id);
      StepKeepsWellFormed(Run(db, before), events[|events| - 1]);
    }
  }

  /**
   Over every run of counting, flushing, failing, deleting and restarting: a surviving
   tunnel's total is its total at process start plus what was flushed, is the sum of its
   samples, and what was flushed was counted.
   */
  lemma Conservation(db: Tables, events: seq<Event>, id: Id)
    requires Sound(db) && id in Run(db, events).db.tunnels
    ensures var s := Run(db, events);
            && IsSum(Stored(s.db.tunnels[id]), Get(s.base, id), Get(s.flushed, id))
            && Stored(s.db.tunnels[id]) == SumSamples(s.db.samples, id)
            && AtMost(Get(s.flushed, id), Get(s.live, id))
  {
    RunKeeps(db, events, id);
  }

  /**
   A failed flush changes nothing, and the next one that succeeds brings the stored total
   up to everything counted by the time of the snapshot: no byte is lost or added twice,
   however many flushes failed before.
   */
  lemma FailedFlushIsRetriedInFull(db: Tables, events: seq<Event>, id: Id)
    requires Sound(db) && id in Run(db, events).db.tunnels && id in Run(db, events).snapshot
    ensures var s := Run(db, events);
            && DoFlush(s, id, false) == s
            && id in DoFlush(s, id, true).db.tunnels
            && IsSum(Stored(DoFlush(s, id, true).db.tunnels[id]), Get(s.base, id), s.snapshot[id])
  {
    RunKeeps(db, events, id);
    FlushCatchesUp(Run(db, events), DoFlush(Run(db, events), id, true), id);
  }

  lemma FlushCatchesUp(s: State, t: State, id: Id)
    requires Balanced(s, id) && id in s.db.tunnels && s.db.tunnels[id].clientId in s.db.clients && id in s.snapshot
    requires t == DoFlush(s, id, true)
    ensures id in t.db.tunnels && IsSum(Stored(t.db.tunnels[id]), Get(s.base, id), s.snapshot[id])
  {
    var delta := Delta(s.snapshot[id], Get(s.flushed, id));
    if delta.inbound <= 0 && delta.outbound <= 0 {
      NothingNew(s.snapshot[id], Get(s.flushed, id));
    } else {
      AddTrafficAdds(s.db, id, delta);
      AddedTo(s.db, t.db, id, delta, id);
      CatchUp(Stored(t.db.tunnels[id]), Stored(s.db.tunnels[id]), Get(s.base, id), Get(s.flushed, id), s.snapshot[id]);
    }
  }

  lemma AddedTo(before: Tables, after: Tables, id: Id, d: Bytes, i: Id)
    requires Added(before, after, id, d) && i in before.tunnels
    ensures i in after.tunnels
    ensures IsSum(Stored(after.tunnels[i]), Stored(before.tunnels[i]), if i == id then d else NoBytes)
  {}

  // ---- The whole history, restarts included ------------------------------------------------------------

  function Plus(a: Bytes, b: Bytes): Bytes {
    Bytes(a.inbound + b.inbound, a.outbound + b.outbound)
  }

  /** What a step counts for a tunnel, and what it forgets: a restart drops everything not flushed yet. */
  function Seen(s: State, e: Event, id: Id): Bytes {
    match e
    case CountIn(i, n) => if i == id && i in s.used then Bytes(n, 0) else NoBytes
    case CountOut(i, n) => if i == id && i in s.used then Bytes(0, n) else NoBytes
    case _ => NoBytes
  }

  function Dropped(s: State, e: Event, id: Id): Bytes {
    if e.Restart? then Delta(Get(s.live, id), Get(s.flushed, id)) else NoBytes
  }

  /** Everything ever counted for a tunnel, and everything ever dropped, over a run. */
  ghost function AllSeen(db: Tables, events: seq<Event>, id: Id): Bytes {
    if events == [] then NoBytes
    else
      var front := events[..|events| - 1];
      Plus(AllSeen(db, front, id), Seen(Run(db, front), events[|events| - 1], id))
  }

  ghost function AllDropped(db: Tables, events: seq<Event>, id: Id): Bytes {
    if events == [] then NoBytes
    else
      var front := events[..|events| - 1];
      Plus(AllDropped(db, front, id), Dropped(Run(db, front), events[|events| - 1], id))
  }

  function Initial(db: Tables, id: Id): Bytes {
    if id in db.tunnels then Stored(db.tunnels[id]) else NoBytes
  }

  /** initial + seen == stored + pending + dropped, in both directions. */
  predicate Ledger(initial: Bytes, seen: Bytes, stored: Bytes, live: Bytes, flushed: Bytes, dropped: Bytes) {
    && initial.inbound + seen.inbound == stored.inbound + (live.inbound - flushed.inbound) + dropped.inbound
    && initial.outbound + seen.outbound == stored.outbound + (live.outbound - flushed.outbound) + dropped.outbound
  }

  /** One tunnel's account: `entry` is what its row has stored, if there is one. */
  predicate Account(entry: Option<Bytes>, used: bool, live: Bytes, flushed: Bytes, initial: Bytes, seen: Bytes, dropped: Bytes) {
    && (entry.Some? ==> used && Ledger(initial, seen, entry.value, live, flushed, dropped))
    && (!used ==> initial == seen == dropped == live == NoBytes)
    && AtMost(NoBytes, dropped)
  }

  function Entry(tunnels: map<Id, Tunnel>, id: Id): Option<Bytes> {
    if id in tunnels then Some(Stored(tunnels[id])) else None
  }

  ghost predicate Accounted(s: State, id: Id, initial: Bytes, seen: Bytes, dropped: Bytes) {
    Account(Entry(s.db.tunnels, id), id in s.used, Get(s.live, id), Get(s.flushed, id), initial, seen, dropped)
  }

  // What the steps do to an account.

  lemma AccountCounts(entry: Option<Bytes>, live: Bytes, flushed: Bytes, initial: Bytes, seen: Bytes, dropped: Bytes,
                      n: Bytes, now: Bytes)
    requires Account(entry, true, live, flushed, initial, seen, dropped) && IsSum(now, live, n)
    ensures Account(entry, true, now, flushed, initial, Plus(seen, n), dropped)
  {}

  lemma AccountFlushes(entry: Option<Bytes>, used: bool, live: Bytes, flushed: Bytes, initial: Bytes, seen: Bytes,
                       dropped: Bytes, now: Bytes, after: Option<Bytes>)
    requires Account(entry, used, live, flushed, initial, seen, dropped) && entry.Some? && after.Some?
    requires IsSum(after.value, entry.value, Delta(now, flushed))
    ensures Account(after, used, live, now, initial, seen, dropped)
  {}

  lemma AccountRestarts(entry: Option<Bytes>, used: bool, live: Bytes, flushed: Bytes, initial: Bytes, seen: Bytes, dropped: Bytes)
    requires Account(entry, used, live, flushed, initial, seen, dropped) && AtMost(flushed, live)
    requires !used ==> flushed == NoBytes
    ensures Account(entry, used, NoBytes, NoBytes, initial, seen, Plus(dropped, Delta(live, flushed)))
  {}

  lemma CountedIs(live: map<Id, Bytes>, counted: Id, n: Bytes, id: Id)
    ensures id == counted ==> IsSum(Get(Counted(live, counted, n), id), Get(live, id), n)
    ensures id != counted ==> Get(Counted(live, counted, n), id) == Get(live, id)
  {}

  lemma CountStep(s: State, counted: Id, n: Bytes, t: State, id: Id, initial: Bytes, seen: Bytes, dropped: Bytes)
    requires Accounted(s, id, initial, seen, dropped)
    requires t == if counted in s.used then s.(live := Counted(s.live, counted, n)) else s
    ensures Accounted(t, id, initial, if id == counted && counted in s.used then Plus(seen, n) else seen, dropped)
  {
    CountedIs(s.live, counted, n, id);
    if id == counted && counted in s.used {
      AccountCounts(Entry(s.db.tunnels, id), Get(s.live, id), Get(s.flushed, id), initial, seen, dropped, n, Get(t.live, id));
    }
  }

  lemma FlushStep(s: State, flushed: Id, ok: bool, t: State, id: Id, initial: Bytes, seen: Bytes, dropped: Bytes)
    requires Accounted(s, id, initial, seen, dropped) && t == DoFlush(s, flushed, ok)
    ensures Accounted(t, id, initial, seen, dropped)
  {
    if t != s {
      var delta := Delta(s.snapshot[flushed], Get(s.flushed, flushed));
      AddTrafficAdds(s.db, flushed, delta);
      FlushedEntry(s.db, t.db, flushed, delta, id);
      if id == flushed {
        AccountFlushes(Entry(s.db.tunnels, id), id in s.used, Get(s.live, id), Get(s.flushed, id), initial, seen, dropped,
                       s.snapshot[id], Entry(t.db.tunnels, id));
      }
    }
  }

  lemma FlushedEntry(before: Tables, after: Tables, flushed: Id, delta: Bytes, id: Id)
    requires Added(before, after, flushed, delta) && flushed in before.tunnels
    ensures id != flushed ==> Entry(after.tunnels, id) == Entry(before.tunnels, id)
    ensures id == flushed ==>
              && Entry(before.tunnels, id).Some? && Entry(after.tunnels, id).Some?
              && IsSum(Entry(after.tunnels, id).value, Entry(before.tunnels, id).value, delta)
  {
    if id in before.tunnels {
      AddedTo(before, after, flushed, delta, id);
    }
  }

  lemma RestartStep(s: State, t: State, id: Id, initial: Bytes, seen: Bytes, dropped: Bytes)
    requires Accounted(s, id, initial, seen, dropped) && AtMost(Get(s.flushed, id), Get(s.live, id))
    requires id !in s.used ==> Get(s.flushed, id) == NoBytes
    requires t.db == s.db && t.used == s.used && t.live == t.flushed == map[]
    ensures Accounted(t, id, initial, seen, Plus(dropped, Delta(Get(s.live, id), Get(s.flushed, id))))
  {
    assert Get(t.live, id) == Get(t.flushed, id) == NoBytes;
    AccountRestarts(Entry(s.db.tunnels, id), id in s.used, Get(s.live, id), Get(s.flushed, id), initial, seen, dropped);
  }

  /** Steps on rows: a row keeps what it has stored, goes, or comes with nothing under a new id. */
  lemma RowStep(s: State, t: State, id: Id, initial: Bytes, seen: Bytes, dropped: Bytes)
    requires Balanced(s, id) && Accounted(s, id, initial, seen, dropped)
    requires t == s.(db := t.db, used := t.used) && s.used <= t.used
    requires || Entry(t.db.tunnels, id) == Entry(s.db.tunnels, id)
             || Entry(t.db.tunnels, id) == None
             || (Entry(t.db.tunnels, id) == Some(NoBytes) && id !in s.used && id in t.used)
    ensures Accounted(t, id, initial, seen, dropped)
  {}

  lemma CreateStep(s: State, created: Id, tunnel: Tunnel, t: State, id: Id, initial: Bytes, seen: Bytes, dropped: Bytes)
    requires Balanced(s, id) && Accounted(s, id, initial, seen, dropped) && t == Step(s, Create(created, tunnel))
    ensures Accounted(t, id, initial, seen, dropped)
  {
    if t != s {
      RowStep(s, t, id, initial, seen, dropped);
    }
  }

  lemma OtherRows(s: State, e: Event, t: State, id: Id)
    requires t == Step(s, e) && (e.Reconfigure? || e.SetClientLimit? || e.Delete? || e.DeleteClients?)
    ensures t == s.(db := t.db)
    ensures Entry(t.db.tunnels, id) == Entry(s.db.tunnels, id) || Entry(t.db.tunnels, id) == None
  {}

  lemma CountIs(s: State, e: Event, t: State, n: Bytes)
    requires t == Step(s, e) && (e.CountIn? || e.CountOut?) && n == if e.CountIn? then Bytes(e.n, 0) else Bytes(0, e.n)
    ensures t == if e.id in s.used then s.(live := Counted(s.live, e.id, n)) else s
  {}

  lemma SeenIs(s: State, e: Event, n: Bytes, id: Id, seen: Bytes)
    requires (e.CountIn? || e.CountOut?) && n == if e.CountIn? then Bytes(e.n, 0) else Bytes(0, e.n)
    ensures Plus(seen, Seen(s, e, id)) == if id == e.id && e.id in s.used then Plus(seen, n) else seen
  {}

  lemma CountedStep(s: State, e: Event, t: State, id: Id, initial: Bytes, seen: Bytes, dropped: Bytes, now: Bytes)
    requires Accounted(s, id, initial, seen, dropped) && t == Step(s, e) && (e.CountIn? || e.CountOut?)
    requires now == Plus(seen, Seen(s, e, id))
    ensures Accounted(t, id, initial, now, dropped)
  {
    var n := if e.CountIn? then Bytes(e.n, 0) else Bytes(0, e.n);
    CountIs(s, e, t, n);
    SeenIs(s, e, n, id, seen);
    CountStep(s, e.id, n, t, id, initial, seen, dropped);
  }

  lemma OtherwiseNothing(s: State, e: Event, id: Id, seen: Bytes, dropped: Bytes)
    ensures !e.CountIn? && !e.CountOut? ==> Plus(seen, Seen(s, e, id)) == seen
    ensures !e.Restart? ==> Plus(dropped, Dropped(s, e, id)) == dropped
  {}

  lemma RestartedStep(s: State, t: State, id: Id, initial: Bytes, seen: Bytes, dropped: Bytes, now: Bytes)
    requires Balanced(s, id) && Accounted(s, id, initial, seen, dropped) && t == Step(s, Restart)
    requires now == Plus(dropped, Dropped(s, Restart, id))
    ensures Accounted(t, id, initial, seen, now)
  {
    RestartStep(s, t, id, initial, seen, dropped);
  }

  lemma AccountedStep(s: State, e: Event, t: State, id: Id, initial: Bytes, seen: Bytes, dropped: Bytes,
                      seenNow: Bytes, droppedNow: Bytes)
    requires Balanced(s, id) && Accounted(s, id, initial, seen, dropped) && t == Step(s, e)
    requires seenNow == Plus(seen, Seen(s, e, id)) && droppedNow == Plus(dropped, Dropped(s, e, id))
    ensures Accounted(t, id, initial, seenNow, droppedNow)
  {
    OtherwiseNothing(s, e, id, seen, dropped);
    if e.Restart? {
      RestartedStep(s, t, id, initial, seen, dropped, droppedNow);
    } else if e.CountIn? || e.CountOut? {
      CountedStep(s, e, t, id, initial, seen, dropped, seenNow);
    } else {
      StoredStep(s, e, t, id, initial, seen, dropped);
    }
  }

  lemma StoredStep(s: State, e: Event, t: State, id: Id, initial: Bytes, seen: Bytes, dropped: Bytes)
    requires Balanced(s, id) && Accounted(s, id, initial, seen, dropped) && t == Step(s, e)
    requires !e.Restart? && !e.CountIn? && !e.CountOut?
    ensures Accounted(t, id, initial, seen, dropped)
  {
    match e
    case TakeSnapshot =>
    case Flush(i, ok) => FlushStep(s, i, ok, t, id, initial, seen, dropped);
    case Create(i, tunnel) => CreateStep(s, i, tunnel, t, id, initial, seen, dropped);
    case _ =>
      OtherRows(s, e, t, id);
      RowStep(s, t, id, initial, seen, dropped);
  }

  lemma {:induction false} RunAccounted(db: Tables, events: seq<Event>, id: Id)
    requires Sound(db)
    ensures Accounted(Run(db, events), id, Initial(db, id), AllSeen(db, events, id), AllDropped(db, events, id))
  {
    if events != [] {
      var front := events[..|events| - 1];
      RunKeeps(db, front, id);
      RunAccounted(db, front, id);
      AccountedStep(Run(db, front), events[|events| - 1], Run(db, events), id, Initial(db, id),
                    AllSeen(db, front, id), AllDropped(db, front, id), AllSeen(db, events, id), AllDropped(db, events, id));
    }
  }

  /**
   The law of the whole history: for a tunnel that exists, what it started with and all that
   was ever counted for it - in this process or an earlier one - is what is stored, what is
   yet to be flushed, and what restarts dropped unflushed. Nothing else is lost, and nothing
   is stored that was not counted.
   */
  lemma EveryByteAccountedFor(db: Tables, events: seq<Event>, id: Id)
    requires Sound(db) && id in Run(db, events).db.tunnels
    ensures var s := Run(db, events);
            && Ledger(Initial(db, id), AllSeen(db, events, id), Stored(s.db.tunnels[id]),
                      Get(s.live, id), Get(s.flushed, id), AllDropped(db, events, id))
            && AtMost(NoBytes, AllDropped(db, events, id))
            && AtMost(Stored(s.db.tunnels[id]), Plus(Initial(db, id), AllSeen(db, events, id)))
  {
    RunKeeps(db, events, id);
    RunAccounted(db, events, id);
  }
}
