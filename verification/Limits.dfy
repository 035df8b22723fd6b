/**
 The traffic quota over runs of every handler: which steps keep "an enabled tunnel is under
 its own limit and its client under the client limit", and exactly which do not.
 */
module Limits {
  import opened Wrappers
  import opened Store
  import opened Quota
  import Handshake
  import Routing

  ghost predicate NonNegative(tunnels: map<Id, Tunnel>) {
    forall i :: i in tunnels ==> Total(tunnels[i]) >= 0
  }

  ghost predicate Good(db: Tables) {
    WellFormed(db) && NonNegative(db.tunnels)
  }

  // ---- The steps that break it -----------------------------------------------------------------------

  /** The tunnel's own traffic is at or over a limit. */
  predicate Used(t: Tunnel, limit: Option<int>) {
    limit.Some? && t.bytesIn + t.bytesOut >= limit.value
  }

  ghost predicate ClientReached(db: Tables, clientId: Id) {
    clientId in db.clients && db.clients[clientId].limit.Some?
    && ClientTotal(db.tunnels, clientId) >= db.clients[clientId].limit.value
  }

  /** Whether the settings handler refuses nothing: the limit is positive, the hostname fits and is not known to be taken. */
  predicate Accepted(db: Tables, id: Id, req: Routing.Settings, checked: bool) {
    var taken := Taken(db.tunnels, Handshake.StoredForm(req.hostname), id);
    Routing.Refusal(req, if checked then Some(taken) else None).None?
  }

  /**
   Enabling a tunnel at its limit or its client's, creating one for a client at its limit,
   and lowering a limit to what an enabled tunnel, or its client, has already used.
   */
  ghost predicate Breaks(db: Tables, e: Routing.Event) {
    match e
    case Toggle(id, enabled) =>
      enabled && id in db.tunnels
      && (Used(db.tunnels[id], db.tunnels[id].limit) || ClientReached(db, db.tunnels[id].clientId))
    case CreateTunnel(id, clientId, name, localHost, localPort, publicPort, protocol) =>
      CanInsertTunnel(db, id, NewTunnel(clientId, name, localHost, localPort, publicPort, protocol)) && ClientReached(db, clientId)
    case Update(id, req, checked) =>
      id in db.tunnels && Accepted(db, id, req, checked)
      && db.tunnels[id].enabled && Used(db.tunnels[id], req.limit)
    case SetClientLimit(id, limit) =>
      id in db.clients && limit.Some? && limit.value > 0 && ClientTotal(db.tunnels, id) >= limit.value
      && exists i :: i in db.tunnels && db.tunnels[i].clientId == id && db.tunnels[i].enabled
    case _ => false
  }

  // ---- Sums ---------------------------------------------------------------------------------------------

  lemma {:induction false} SumSubset(tunnels: map<Id, Tunnel>, some: set<Id>, all: set<Id>)
    requires some <= all <= tunnels.Keys && NonNegative(tunnels)
    ensures SumOver(tunnels, some) <= SumOver(tunnels, all)
    decreases |all|
  {
    if all != some {
      var id :| id in all && id !in some;
      SumRemove(tunnels, all, id);
      SumSubset(tunnels, some, all - {id});
    }
  }

  /** Fewer rows with the totals they had: a client's sum does not grow. */
  lemma FewerRows(before: map<Id, Tunnel>, after: map<Id, Tunnel>, clientId: Id)
    requires NonNegative(before) && after.Keys <= before.Keys
    requires forall i :: i in after ==> after[i].clientId == before[i].clientId && Total(after[i]) == Total(before[i])
    ensures ClientTotal(after, clientId) <= ClientTotal(before, clientId)
  {
    SumSame(before, after, Owned(after, clientId));
    SumSubset(before, Owned(after, clientId), Owned(before, clientId));
  }

  /** The same rows with the totals they had: no client's sum moves. */
  lemma SameRows(before: map<Id, Tunnel>, after: map<Id, Tunnel>, clientId: Id)
    requires after.Keys == before.Keys
    requires forall i :: i in after ==> after[i].clientId == before[i].clientId && Total(after[i]) == Total(before[i])
    ensures ClientTotal(after, clientId) == ClientTotal(before, clientId)
  {
    assert Owned(after, clientId) == Owned(before, clientId);
    SumSame(before, after, Owned(after, clientId));
  }

  // ---- Step by step --------------------------------------------------------------------------------------

  lemma ToggleQuota(db: Tables, id: Id, enabled: bool, after: Tables)
    requires Good(db) && QuotaHolds(db) && after == SetEnabled(db, id, enabled)
    ensures Good(after) && (QuotaHolds(after) <==> !Breaks(db, Routing.Toggle(id, enabled)))
  {
    ToggleGood(db, id, enabled, after);
    if id in db.tunnels {
      if enabled {
        EnablingKeepsQuota(db, id);
      } else {
        DisablingQuota(db, id, after);
      }
    }
  }

  lemma ToggleGood(db: Tables, id: Id, enabled: bool, after: Tables)
    requires Good(db) && after == SetEnabled(db, id, enabled)
    ensures Good(after)
  {}

  lemma DisablingQuota(db: Tables, id: Id, after: Tables)
    requires Good(db) && QuotaHolds(db) && Good(after) && after == SetEnabled(db, id, false)
    ensures QuotaHolds(after)
  {
    forall i | i in after.tunnels ensures QuotaAt(after, i) {
      assert QuotaAt(db, i);
      SetEnabledTotals(db, id, false, db.tunnels[i].clientId);
    }
  }

  lemma CreateTunnelQuota(db: Tables, id: Id, t: Tunnel, after: Tables)
    requires Good(db) && QuotaHolds(db) && CanInsertTunnel(db, id, t)
    requires t.enabled && t.limit.None? && Total(t) == 0 && after == db.(tunnels := db.tunnels[id := t])
    ensures Good(after) && (QuotaHolds(after) <==> !ClientReached(db, t.clientId))
  {
    InsertTunnelKeeps(db, id, t);
    NewRowTotal(db.tunnels, id, t, t.clientId);
    assert QuotaHolds(after) ==> QuotaAt(after, id);
    if !ClientReached(db, t.clientId) {
      forall i | i in after.tunnels ensures QuotaAt(after, i) {
        if i != id {
          assert QuotaAt(db, i);
          NewRowTotal(db.tunnels, id, t, db.tunnels[i].clientId);
        }
      }
    }
  }

  lemma NewRowTotal(tunnels: map<Id, Tunnel>, id: Id, t: Tunnel, clientId: Id)
    requires id !in tunnels && Total(t) == 0
    ensures ClientTotal(tunnels[id := t], clientId) == ClientTotal(tunnels, clientId)
  {
    var after := tunnels[id := t];
    var ids := Owned(tunnels, clientId);
    SumSame(tunnels, after, ids);
    if t.clientId == clientId {
      assert Owned(after, clientId) == ids + {id};
      SumRemove(after, ids + {id}, id);
      assert ids + {id} - {id} == ids;
    } else {
      assert Owned(after, clientId) == ids;
    }
  }

  lemma UpdateGood(db: Tables, id: Id, t: Tunnel, after: Tables)
    requires Good(db) && id in db.tunnels && after == db.(tunnels := db.tunnels[id := t])
    requires t == db.tunnels[id].(limit := t.limit, hostname := t.hostname, proxyProtocol := t.proxyProtocol)
    ensures Good(after)
  {}

  lemma UpdateQuota(db: Tables, id: Id, t: Tunnel, after: Tables)
    requires Good(db) && QuotaHolds(db) && id in db.tunnels && after == db.(tunnels := db.tunnels[id := t])
    requires t == db.tunnels[id].(limit := t.limit, hostname := t.hostname, proxyProtocol := t.proxyProtocol)
    ensures Good(after) && (QuotaHolds(after) <==> !(t.enabled && Used(t, t.limit)))
  {
    UpdateGood(db, id, t, after);
    assert QuotaAt(db, id);
    SameRows(db.tunnels, after.tunnels, t.clientId);
    assert QuotaHolds(after) ==> QuotaAt(after, id);
    if !(t.enabled && Used(t, t.limit)) {
      forall i | i in after.tunnels ensures QuotaAt(after, i) {
        assert QuotaAt(db, i);
        SameRows(db.tunnels, after.tunnels, db.tunnels[i].clientId);
      }
    }
  }

  lemma ClientLimitGood(db: Tables, id: Id, limit: Option<int>, after: Tables)
    requires Good(db) && id in db.clients && after == db.(clients := db.clients[id := db.clients[id].(limit := limit)])
    ensures Good(after)
  {}

  lemma ClientLimitQuota(db: Tables, id: Id, limit: Option<int>, after: Tables)
    requires Good(db) && QuotaHolds(db) && id in db.clients
    requires after == db.(clients := db.clients[id := db.clients[id].(limit := limit)])
    ensures Good(after)
    ensures QuotaHolds(after) <==>
              !((limit.Some? && ClientTotal(db.tunnels, id) >= limit.value)
                && exists i :: i in db.tunnels && db.tunnels[i].clientId == id && db.tunnels[i].enabled)
  {
    ClientLimitGood(db, id, limit, after);
    forall i | i in db.tunnels
      ensures QuotaAt(after, i) <==>
                !(db.tunnels[i].clientId == id && db.tunnels[i].enabled && (limit.Some? && ClientTotal(db.tunnels, id) >= limit.value))
    {
      assert QuotaAt(db, i);
    }
  }

  /** Steps that leave every remaining row and its client's limit as they were. */
  lemma RemovalQuota(db: Tables, after: Tables)
    requires Good(db) && QuotaHolds(db) && WellFormed(after) && after.tunnels.Keys <= db.tunnels.Keys
    requires forall i :: i in after.tunnels ==> after.tunnels[i] == db.tunnels[i]
    requires forall c :: c in after.clients && c in db.clients ==> after.clients[c] == db.clients[c]
    ensures Good(after) && QuotaHolds(after)
  {
    forall i | i in after.tunnels ensures QuotaAt(after, i) {
      assert QuotaAt(db, i);
      FewerRows(db.tunnels, after.tunnels, db.tunnels[i].clientId);
    }
  }

  lemma TrafficQuota(db: Tables, id: Id, bytesIn: nat, bytesOut: nat, after: Tables)
    requires Good(db) && QuotaHolds(db) && id in db.tunnels && after == AddTraffic(db, id, bytesIn, bytesOut)
    ensures Good(after) && QuotaHolds(after)
  {
    AddTrafficKeepsQuota(db, id, bytesIn, bytesOut);
    forall i | i in after.tunnels ensures Total(after.tunnels[i]) >= 0 {
      AddTrafficRow(db, id, bytesIn, bytesOut, i);
    }
  }

  lemma ClientInsertQuota(db: Tables, id: Id, c: Client, after: Tables)
    requires Good(db) && QuotaHolds(db) && CanInsertClient(db, id, c) && after == db.(clients := db.clients[id := c])
    ensures Good(after) && QuotaHolds(after)
  {
    ClientInsertGood(db, id, c, after);
    forall i | i in after.tunnels ensures QuotaAt(after, i) {
      assert QuotaAt(db, i);
    }
  }

  lemma ClientInsertGood(db: Tables, id: Id, c: Client, after: Tables)
    requires Good(db) && CanInsertClient(db, id, c) && after == db.(clients := db.clients[id := c])
    ensures Good(after)
  {}

  /** The quota survives a step if and only if the step is none of those. */
  lemma StepQuota(db: Tables, e: Routing.Event, after: Tables)
    requires Good(db) && QuotaHolds(db) && after == Routing.Step(db, e)
    ensures Good(after) && (QuotaHolds(after) <==> !Breaks(db, e))
  {
    match e
    case DeleteTunnel(_) => DeletionQuota(db, e, after);
    case DeleteClients(_) => DeletionQuota(db, e, after);
    case AddBytes(id, bytesIn, bytesOut) => if id in db.tunnels { TrafficQuota(db, id, bytesIn, bytesOut, after); }
    case Toggle(id, enabled) => ToggleQuota(db, id, enabled, after);
    case _ => SettingQuota(db, e, after);
  }

  lemma SettingQuota(db: Tables, e: Routing.Event, after: Tables)
    requires Good(db) && QuotaHolds(db) && after == Routing.Step(db, e)
    requires e.CreateClient? || e.CreateTunnel? || e.Update? || e.SetClientLimit?
    ensures Good(after) && (QuotaHolds(after) <==> !Breaks(db, e))
  {
    match e
    case CreateClient(id, c) => if CanInsertClient(db, id, c) { ClientInsertQuota(db, id, c, after); }
    case CreateTunnel(id, clientId, name, localHost, localPort, publicPort, protocol) =>
      var t := NewTunnel(clientId, name, localHost, localPort, publicPort, protocol);
      if CanInsertTunnel(db, id, t) { CreateTunnelQuota(db, id, t, after); }
    case Update(id, req, checked) =>
      if id in db.tunnels && Accepted(db, id, req, checked) { UpdateQuota(db, id, Routing.ApplyRequest(db.tunnels[id], req), after); }
    case SetClientLimit(id, limit) =>
      if id in db.clients && (limit.Some? ==> limit.value > 0) { ClientLimitQuota(db, id, limit, after); }
  }

  lemma DeletionQuota(db: Tables, e: Routing.Event, after: Tables)
    requires Good(db) && QuotaHolds(db) && after == Routing.Step(db, e) && (e.DeleteTunnel? || e.DeleteClients?)
    ensures Good(after) && QuotaHolds(after)
  {
    match e
    case DeleteTunnel(id) => DeletedTunnelQuota(db, id, after);
    case DeleteClients(ids) => DeletedClientsQuota(db, ids, after);
  }

  lemma DeletedTunnelQuota(db: Tables, id: Id, after: Tables)
    requires Good(db) && QuotaHolds(db) && after == RemoveTunnel(db, id)
    ensures Good(after) && QuotaHolds(after)
  {
    RemoveTunnelKeeps(db, id);
    RemovalQuota(db, after);
  }

  lemma DeletedClientsQuota(db: Tables, ids: set<Id>, after: Tables)
    requires Good(db) && QuotaHolds(db) && after == RemoveClients(db, ids)
    ensures Good(after) && QuotaHolds(after)
  {
    RemoveClientsKeeps(db, ids);
    RemovalQuota(db, after);
  }

  /** Over every run of all the handlers without such a step, the quota holds throughout. */
  lemma {:induction false} RunQuota(events: seq<Routing.Event>)
    requires forall k :: 0 <= k < |events| ==> !Breaks(Routing.Run(events[..k]), events[k])
    ensures Good(Routing.Run(events)) && QuotaHolds(Routing.Run(events))
  {
    if events != [] {
      var front := events[..|events| - 1];
      assert forall k :: 0 <= k < |front| ==> front[..k] == events[..k] && front[k] == events[k];
      RunQuota(front);
      StepQuota(Routing.Run(front), events[|events| - 1], Routing.Run(events));
    }
  }
}
