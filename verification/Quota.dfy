/**
 Traffic limits: each tunnel has its own, each client one on the sum over its tunnels,
 and AddTunnelTraffic is where both are enforced.
 */
module Quota {
  import opened Wrappers
  import opened Store

  /** An enabled tunnel is under its own limit, and its client's combined total under the client's. */
  ghost predicate QuotaAt(db: Tables, i: Id)
    requires i in db.tunnels && db.tunnels[i].clientId in db.clients
  {
    var t := db.tunnels[i];
    var clientLimit := db.clients[t.clientId].limit;
    t.enabled ==>
      && (t.limit.Some? ==> t.bytesIn + t.bytesOut < t.limit.value)
      && (clientLimit.Some? ==> ClientTotal(db.tunnels, t.clientId) < clientLimit.value)
  }

  ghost predicate QuotaHolds(db: Tables)
    requires ForeignKeys(db)
  {
    forall i :: i in db.tunnels ==> QuotaAt(db, i)
  }

  // ---- Sums after the update ----------------------------------------------------------------

  lemma OwnedSame(before: map<Id, Tunnel>, after: map<Id, Tunnel>, clientId: Id)
    requires SameConfig(before, after)
    ensures Owned(before, clientId) == Owned(after, clientId)
  {
    forall i | i in before
      ensures before[i].clientId == after[i].clientId
    {
      assert Config(before[i]) == Config(after[i]);
    }
  }

  /** Other clients' sums do not move. */
  lemma OtherTotals(db: Tables, id: Id, bytesIn: int, bytesOut: int, clientId: Id)
    requires WellFormed(db) && id in db.tunnels && clientId != db.tunnels[id].clientId
    ensures ClientTotal(AddTraffic(db, id, bytesIn, bytesOut).tunnels, clientId) == ClientTotal(db.tunnels, clientId)
  {
    var after := AddTraffic(db, id, bytesIn, bytesOut).tunnels;
    AddTrafficSameConfig(db, id, bytesIn, bytesOut);
    forall i | i in Owned(db.tunnels, clientId)
      ensures Total(db.tunnels[i]) == Total(after[i])
    {
      OtherRowTotal(db, id, bytesIn, bytesOut, after, i);
    }
    SameTotals(db.tunnels, after, clientId);
  }

  lemma OtherRowTotal(db: Tables, id: Id, bytesIn: int, bytesOut: int, after: map<Id, Tunnel>, i: Id)
    requires id in db.tunnels && db.tunnels[id].clientId in db.clients && i in db.tunnels && i != id
    requires after == AddTraffic(db, id, bytesIn, bytesOut).tunnels
    ensures i in after && Total(after[i]) == Total(db.tunnels[i])
  {
    AddTrafficRow(db, id, bytesIn, bytesOut, i);
  }

  lemma SameTotals(before: map<Id, Tunnel>, after: map<Id, Tunnel>, clientId: Id)
    requires SameConfig(before, after)
    requires forall i :: i in Owned(before, clientId) ==> Total(before[i]) == Total(after[i])
    ensures ClientTotal(after, clientId) == ClientTotal(before, clientId)
  {
    OwnedSame(before, after, clientId);
    SumSame(before, after, Owned(before, clientId));
  }

  /** The sum the transaction compares with the client's limit is the sum it leaves behind. */
  lemma OwnTotal(db: Tables, id: Id, bytesIn: int, bytesOut: int)
    requires WellFormed(db) && id in db.tunnels
    ensures var after := AddTraffic(db, id, bytesIn, bytesOut).tunnels;
            var clientId := db.tunnels[id].clientId;
            var limit := db.clients[clientId].limit;
            ClientOver(db, id, bytesIn, bytesOut) <==> limit.Some? && ClientTotal(after, clientId) >= limit.value
  {
    var after := AddTraffic(db, id, bytesIn, bytesOut).tunnels;
    var clientId := db.tunnels[id].clientId;
    var checked := EnforceTunnelLimit(RecordTraffic(db, id, bytesIn, bytesOut).tunnels, id);
    assert Owned(checked, clientId) == Owned(after, clientId);
    SumSame(checked, after, Owned(after, clientId));
  }

  // ---- What a call restores ---------------------------------------------------------------------

  /**
   From any state at all, a committed call on tunnel `id` leaves it enabled exactly if it
   was and neither its own limit nor the client's is reached by the totals left behind; a
   sibling exactly if it was and the client's limit is not reached; every other tunnel as
   it was. Nothing becomes enabled.
   */
  lemma RestoresLimits(db: Tables, id: Id, bytesIn: int, bytesOut: int, i: Id)
    requires WellFormed(db) && id in db.tunnels && i in db.tunnels
    ensures var after := AddTraffic(db, id, bytesIn, bytesOut).tunnels;
            var clientId := db.tunnels[id].clientId;
            var limit, clientLimit := db.tunnels[i].limit, db.clients[clientId].limit;
            var over := clientLimit.Some? && ClientTotal(after, clientId) >= clientLimit.value;
            if i == id then
              after[i].enabled <==>
                db.tunnels[i].enabled && (limit.Some? ==> after[i].bytesIn + after[i].bytesOut < limit.value) && !over
            else if db.tunnels[i].clientId == clientId then
              after[i] == db.tunnels[i].(enabled := db.tunnels[i].enabled && !over)
            else
              after[i] == db.tunnels[i]
  {
    AddTrafficRow(db, id, bytesIn, bytesOut, i);
    OwnTotal(db, id, bytesIn, bytesOut);
    var after := AddTraffic(db, id, bytesIn, bytesOut).tunnels;
    assert Config(after[i]) == Config(db.tunnels[i]);
  }

  /** The quota is an invariant of traffic: every call keeps it. */
  lemma AddTrafficKeepsQuota(db: Tables, id: Id, bytesIn: int, bytesOut: int)
    requires WellFormed(db) && QuotaHolds(db) && id in db.tunnels
    ensures WellFormed(AddTraffic(db, id, bytesIn, bytesOut)) && QuotaHolds(AddTraffic(db, id, bytesIn, bytesOut))
  {
    AddTrafficKeeps(db, id, bytesIn, bytesOut);
    var after := AddTraffic(db, id, bytesIn, bytesOut);
    forall i | i in after.tunnels
      ensures QuotaAt(after, i)
    {
      assert QuotaAt(db, i);
      RestoresLimits(db, id, bytesIn, bytesOut, i);
      AddTrafficRow(db, id, bytesIn, bytesOut, i);
      assert Config(after.tunnels[i]).limit == Config(db.tunnels[i]).limit;
      assert Config(after.tunnels[i]).clientId == Config(db.tunnels[i]).clientId;
      if db.tunnels[i].clientId != db.tunnels[id].clientId {
        OtherTotals(db, id, bytesIn, bytesOut, db.tunnels[i].clientId);
      }
    }
  }

  /** The invariant over whole runs of traffic, whatever tunnels it flows through. */
  datatype Traffic = Traffic(id: Id, bytesIn: int, bytesOut: int)

  ghost function AddAll(db: Tables, flows: seq<Traffic>): (r: Tables)
    requires WellFormed(db)
    ensures WellFormed(r)
  {
    if flows == [] then db
    else
      var before := AddAll(db, flows[..|flows| - 1]);
      var f := flows[|flows| - 1];
      if f.id in before.tunnels then
        AddTrafficKeeps(before, f.id, f.bytesIn, f.bytesOut);
        AddTraffic(before, f.id, f.bytesIn, f.bytesOut)
      else before
  }

  lemma {:induction false} TrafficKeepsQuota(db: Tables, flows: seq<Traffic>)
    requires WellFormed(db) && QuotaHolds(db)
    ensures QuotaHolds(AddAll(db, flows))
  {
    if flows != [] {
      TrafficKeepsQuota(db, flows[..|flows| - 1]);
      var before := AddAll(db, flows[..|flows| - 1]);
      var f := flows[|flows| - 1];
      if f.id in before.tunnels {
        AddTrafficKeepsQuota(before, f.id, f.bytesIn, f.bytesOut);
      }
    }
  }

  // ---- Re-enabling ------------------------------------------------------------------------------------

  lemma SetEnabledTotals(db: Tables, id: Id, enabled: bool, clientId: Id)
    ensures ClientTotal(SetEnabled(db, id, enabled).tunnels, clientId) == ClientTotal(db.tunnels, clientId)
  {
    var after := SetEnabled(db, id, enabled).tunnels;
    assert Owned(after, clientId) == Owned(db.tunnels, clientId);
    SumSame(db.tunnels, after, Owned(after, clientId));
  }

  /** Re-enabling is not guarded: it keeps the quota exactly when neither limit is reached already. */
  lemma EnablingKeepsQuota(db: Tables, id: Id)
    requires WellFormed(db) && QuotaHolds(db) && id in db.tunnels
    ensures ForeignKeys(SetEnabled(db, id, true))
    ensures QuotaHolds(SetEnabled(db, id, true)) <==>
              var t := db.tunnels[id];
              var clientLimit := db.clients[t.clientId].limit;
              && (t.limit.Some? ==> t.bytesIn + t.bytesOut < t.limit.value)
              && (clientLimit.Some? ==> ClientTotal(db.tunnels, t.clientId) < clientLimit.value)
  {
    var after := SetEnabled(db, id, true);
    SetEnabledTotals(db, id, true, db.tunnels[id].clientId);
    assert QuotaHolds(after) ==> QuotaAt(after, id);
    forall i | i in db.tunnels && i != id
      ensures QuotaAt(after, i)
    {
      assert QuotaAt(db, i);
      SetEnabledTotals(db, id, true, db.tunnels[i].clientId);
    }
  }

  /** ... and a tunnel re-enabled at its limit goes down again with the next bytes that flow through it. */
  lemma ReenablingIsUndone(db: Tables, id: Id, bytesIn: nat, bytesOut: nat)
    requires WellFormed(db) && id in db.tunnels
    requires db.tunnels[id].limit.Some? && db.tunnels[id].bytesIn + db.tunnels[id].bytesOut >= db.tunnels[id].limit.value
    ensures !AddTraffic(SetEnabled(db, id, true), id, bytesIn, bytesOut).tunnels[id].enabled
  {
    AddTrafficRow(SetEnabled(db, id, true), id, bytesIn, bytesOut, id);
    var after := AddTraffic(SetEnabled(db, id, true), id, bytesIn, bytesOut).tunnels[id];
    assert Config(after).limit == db.tunnels[id].limit;
  }

  /** A database with one tunnel that used up its limit of ten bytes. */
  function UsedUp(): Tables {
    Empty.(clients := map[Uuid("c") := Client("c", Sha256("t"), false, None)],
           tunnels := map[Uuid("a") := Tunnel(Uuid("c"), "a", "localhost", 1, 0, "tcp", false, Some(10), [], false, 4, 6)])
  }

  /** Re-enabling it breaks the quota. */
  lemma ReenablingBreaksQuota()
    ensures WellFormed(UsedUp()) && QuotaHolds(UsedUp())
    ensures ForeignKeys(SetEnabled(UsedUp(), Uuid("a"), true)) && !QuotaHolds(SetEnabled(UsedUp(), Uuid("a"), true))
  {
    EnablingKeepsQuota(UsedUp(), Uuid("a"));
  }
}
