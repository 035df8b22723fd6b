/**
 Public listeners: the reconcile pass that makes the set of running listeners follow the
 database, and shutdown, which stops them all while a pass may still be under way.
 */
module Listeners {
  import opened Store

  /** A port of one transport; TCP and UDP ports of the same number are different ports. */
  datatype Port = Port(udp: bool, number: nat)

  /** A running listener. `serial` tells listener objects apart: each has its own stop channel. */
  datatype Listener = Listener(serial: nat, port: Port)

  /** `cancels` records every call of a listener's cancel, by serial. */
  datatype Server = Server(listeners: map<Id, Listener>, cancels: multiset<nat>, next: nat)

  function PortOf(t: Tunnel): Port {
    Port(t.protocol == "udp", t.publicPort)
  }

  function Serials(listeners: map<Id, Listener>, ids: set<Id>): set<nat> {
    set id | id in ids && id in listeners :: listeners[id].serial
  }

  /** A running listener was never cancelled, and no two share a stop channel. */
  ghost predicate Valid(s: Server) {
    && (forall id :: id in s.listeners ==> s.listeners[id].serial < s.next && s.listeners[id].serial !in s.cancels)
    && (forall i, j :: i in s.listeners && j in s.listeners && s.listeners[i].serial == s.listeners[j].serial ==> i == j)
    && (forall n :: n in s.cancels ==> n < s.next && s.cancels[n] == 1)
  }

  /** What a pass may rely on: rows have distinct ports, and a running listener is on its row's port. */
  ghost predicate Compatible(listeners: map<Id, Listener>, wanted: map<Id, Tunnel>) {
    && UniquePorts(wanted)
    && forall id :: id in listeners && id in wanted ==> listeners[id].port == PortOf(wanted[id])
  }

  /** The tunnels that have a listener after a pass; `foreign` are the ports nobody here can bind. */
  function Running(before: Server, wanted: map<Id, Tunnel>, foreign: set<Port>): set<Id> {
    set id | id in wanted && (id in before.listeners || (wanted[id].publicPort != 0 && PortOf(wanted[id]) !in foreign))
  }

  /** What one reconcile pass does, whatever order it walks its maps in. */
  ghost predicate Synced(before: Server, wanted: map<Id, Tunnel>, foreign: set<Port>, after: Server) {
    && after.listeners.Keys == Running(before, wanted, foreign)
    && before.next <= after.next
    && Kept(before, after)
    && Fresh(before, wanted, after)
    && after.cancels == before.cancels + multiset(Serials(before.listeners, before.listeners.Keys - wanted.Keys))
  }

  /** Listeners that stay are the same objects. */
  ghost predicate Kept(before: Server, after: Server) {
    forall id :: id in after.listeners && id in before.listeners ==> after.listeners[id] == before.listeners[id]
  }

  /** New ones are on their row's port, each with a stop channel of its own. */
  ghost predicate Fresh(before: Server, wanted: map<Id, Tunnel>, after: Server) {
    && (forall id :: id in after.listeners && id !in before.listeners ==>
          && id in wanted && after.listeners[id].port == PortOf(wanted[id]) && wanted[id].publicPort != 0
          && before.next <= after.listeners[id].serial < after.next)
    && (forall i, j :: i in after.listeners && j in after.listeners && i !in before.listeners && j !in before.listeners ==>
          after.listeners[i].serial == after.listeners[j].serial ==> i == j)
  }

  // ---- The server object -------------------------------------------------------------------------

  class Registry {
    var listeners: map<Id, Listener>
    var cancels: multiset<nat>
    var next: nat

    ghost function State(): Server
      reads this
    {
      Server(listeners, cancels, next)
    }

    constructor ()
      ensures State() == Server(map[], multiset{}, 0) && Valid(State())
    {
      listeners, cancels, next := map[], multiset{}, 0;
    }

    /** cancel(), then Close, then delete. Cancelling twice would close a closed channel. */
    method Stop(id: Id)
      requires id in listeners && listeners[id].serial !in cancels
      modifies this
      ensures State() == Server(old(listeners) - {id}, old(cancels) + multiset{old(listeners)[id].serial}, old(next))
    {
      cancels := cancels + multiset{listeners[id].serial};
      listeners := listeners - {id};
    }

    /** startTunnelListener: binding fails if someone else, or another listener here, holds the port. */
    method Start(id: Id, t: Tunnel, foreign: set<Port>) returns (ok: bool)
      modifies this
      ensures ok <==> PortOf(t) !in foreign && forall i :: i in old(listeners) ==> old(listeners)[i].port != PortOf(t)
      ensures State() == if ok then Server(old(listeners)[id := Listener(old(next), PortOf(t))], old(cancels), old(next) + 1)
                         else old(State())
    {
      var held := set i | i in listeners :: listeners[i].port;
      ok := PortOf(t) !in foreign && PortOf(t) !in held;
      if ok {
        listeners := listeners[id := Listener(next, PortOf(t))];
        next := next + 1;
      }
    }

    /** reconcileListeners, the section under the lock. */
    method Reconcile(wanted: map<Id, Tunnel>, foreign: set<Port>)
      requires Valid(State()) && Compatible(listeners, wanted)
      modifies this
      ensures Synced(old(State()), wanted, foreign, State()) && Valid(State())
    {
      ghost var before := State();
      StopUnwanted(wanted);
      ghost var mid := State();
      StartMissing(wanted, foreign);
      PassDone(before, mid, wanted, foreign, State());
    }

    /** The first loop: listeners whose tunnel is gone or disabled are stopped. */
    method StopUnwanted(wanted: map<Id, Tunnel>)
      requires Valid(State())
      modifies this
      ensures Stopped(old(State()), wanted, State())
    {
      ghost var before := State();
      var rest := listeners.Keys;
      StoppingStarts(before, wanted);
      while rest != {}
        invariant Stopping(before, wanted, rest, State())
        decreases |rest|
      {
        var id :| id in rest;
        StopIfUnwanted(before, wanted, rest, id);
        rest := rest - {id};
      }
      StoppingEnds(before, wanted, State());
    }

    method StopIfUnwanted(ghost before: Server, wanted: map<Id, Tunnel>, ghost rest: set<Id>, id: Id)
      requires Valid(before) && Stopping(before, wanted, rest, State()) && id in rest
      modifies this
      ensures Stopping(before, wanted, rest - {id}, State())
    {
      ghost var was := State();
      if id !in wanted {
        NotCancelled(before, wanted, rest, id, was);
        Stop(id);
      }
      StoppingStep(before, wanted, rest, id, was, State());
    }

    /** The second loop: tunnels with a port of their own and no listener get one. */
    method StartMissing(wanted: map<Id, Tunnel>, foreign: set<Port>)
      requires Compatible(listeners, wanted) && listeners.Keys <= wanted.Keys
      modifies this
      ensures Starting(old(State()), wanted, foreign, {}, State())
    {
      ghost var mid := State();
      var rest := wanted.Keys;
      StartingStarts(mid, wanted, foreign);
      while rest != {}
        invariant rest <= wanted.Keys && Starting(mid, wanted, foreign, rest, State())
        decreases |rest|
      {
        var id :| id in rest;
        StartIfMissing(mid, wanted, foreign, rest, id);
        rest := rest - {id};
      }
    }

    method StartIfMissing(ghost mid: Server, wanted: map<Id, Tunnel>, foreign: set<Port>, ghost rest: set<Id>, id: Id)
      requires Compatible(mid.listeners, wanted) && rest <= wanted.Keys && id in rest
      requires Starting(mid, wanted, foreign, rest, State())
      modifies this
      ensures Starting(mid, wanted, foreign, rest - {id}, State())
    {
      ghost var was := State();
      if id !in listeners && wanted[id].publicPort != 0 {
        PortIsOurs(mid, wanted, foreign, rest, was, id);
        var ok := Start(id, wanted[id], foreign);
      }
      StartingStep(mid, wanted, foreign, rest, id, was, State());
    }

    /** The sweep of Shutdown under the lock. */
    method StopAll()
      requires Valid(State())
      modifies this
      ensures State() == Swept(old(State())) && Valid(State())
      ensures listeners == map[]
      ensures forall id :: id in old(listeners) ==> cancels[old(listeners)[id].serial] == 1
      ensures forall n :: n in old(cancels) ==> cancels[n] == 1
    {
      ghost var before := State();
      var none: map<Id, Tunnel> := map[];
      StopUnwanted(none);
      assert before.listeners.Keys - none.Keys == before.listeners.Keys;
      assert listeners.Keys == {};
      SweptValid(before);
    }
  }

  /** All listeners stopped. */
  function Swept(s: Server): Server {
    Server(map[], s.cancels + multiset(Serials(s.listeners, s.listeners.Keys)), s.next)
  }

  lemma SweptValid(s: Server)
    requires Valid(s)
    ensures Valid(Swept(s))
  {}

  // ---- The first loop -----------------------------------------------------------------------------

  ghost predicate Stopping(before: Server, wanted: map<Id, Tunnel>, rest: set<Id>, now: Server) {
    && rest <= now.listeners.Keys
    && now.listeners.Keys == rest + before.listeners.Keys * wanted.Keys
    && Kept(before, now) && now.listeners.Keys <= before.listeners.Keys
    && now.next == before.next
    && now.cancels == before.cancels + multiset(Serials(before.listeners, before.listeners.Keys - wanted.Keys - rest))
  }

  ghost predicate Stopped(before: Server, wanted: map<Id, Tunnel>, now: Server) {
    && now.listeners.Keys == before.listeners.Keys * wanted.Keys
    && Kept(before, now)
    && now.next == before.next
    && now.cancels == before.cancels + multiset(Serials(before.listeners, before.listeners.Keys - wanted.Keys))
  }

  lemma StoppingStarts(before: Server, wanted: map<Id, Tunnel>)
    ensures Stopping(before, wanted, before.listeners.Keys, before)
  {
    assert before.listeners.Keys - wanted.Keys - before.listeners.Keys == {};
    assert Serials(before.listeners, {}) == {};
  }

  lemma StoppingEnds(before: Server, wanted: map<Id, Tunnel>, now: Server)
    requires Stopping(before, wanted, {}, now)
    ensures Stopped(before, wanted, now)
  {
    assert before.listeners.Keys - wanted.Keys - {} == before.listeners.Keys - wanted.Keys;
  }

  lemma SerialsAdd(s: Server, ids: set<Id>, id: Id)
    requires Valid(s) && ids <= s.listeners.Keys && id in s.listeners && id !in ids
    ensures s.listeners[id].serial !in Serials(s.listeners, ids)
    ensures multiset(Serials(s.listeners, ids + {id})) == multiset(Serials(s.listeners, ids)) + multiset{s.listeners[id].serial}
  {
    assert Serials(s.listeners, ids + {id}) == Serials(s.listeners, ids) + {s.listeners[id].serial};
  }

  lemma NotCancelled(before: Server, wanted: map<Id, Tunnel>, rest: set<Id>, id: Id, now: Server)
    requires Valid(before) && Stopping(before, wanted, rest, now) && id in rest
    ensures now.listeners[id].serial !in now.cancels
  {
    SerialsAdd(before, before.listeners.Keys - wanted.Keys - rest, id);
  }

  lemma StoppingStep(before: Server, wanted: map<Id, Tunnel>, rest: set<Id>, id: Id, was: Server, now: Server)
    requires Valid(before) && Stopping(before, wanted, rest, was) && id in rest
    requires now == if id in wanted then was
                    else Server(was.listeners - {id}, was.cancels + multiset{was.listeners[id].serial}, was.next)
    ensures Stopping(before, wanted, rest - {id}, now)
  {
    var gone := before.listeners.Keys - wanted.Keys - rest;
    if id in wanted {
      assert before.listeners.Keys - wanted.Keys - (rest - {id}) == gone;
    } else {
      assert before.listeners.Keys - wanted.Keys - (rest - {id}) == gone + {id};
      SerialsAdd(before, gone, id);
    }
  }

  // ---- The second loop ----------------------------------------------------------------------------

  function Startable(wanted: map<Id, Tunnel>, ids: set<Id>, foreign: set<Port>): set<Id> {
    set id | id in ids && id in wanted && wanted[id].publicPort != 0 && PortOf(wanted[id]) !in foreign
  }

  ghost predicate Starting(mid: Server, wanted: map<Id, Tunnel>, foreign: set<Port>, rest: set<Id>, now: Server) {
    && mid.listeners.Keys <= wanted.Keys
    && now.listeners.Keys == mid.listeners.Keys + Startable(wanted, wanted.Keys - rest, foreign)
    && Kept(mid, now) && Fresh(mid, wanted, now)
    && mid.next <= now.next && now.cancels == mid.cancels
  }

  lemma StartingStarts(mid: Server, wanted: map<Id, Tunnel>, foreign: set<Port>)
    requires mid.listeners.Keys <= wanted.Keys
    ensures Starting(mid, wanted, foreign, wanted.Keys, mid)
  {
    assert Startable(wanted, wanted.Keys - wanted.Keys, foreign) == {};
  }

  /** No listener here is in the way of a tunnel that has none yet. */
  lemma PortIsOurs(mid: Server, wanted: map<Id, Tunnel>, foreign: set<Port>, rest: set<Id>, now: Server, id: Id)
    requires Starting(mid, wanted, foreign, rest, now) && Compatible(mid.listeners, wanted)
    requires id in wanted && id !in now.listeners && wanted[id].publicPort != 0
    ensures forall i :: i in now.listeners ==> now.listeners[i].port != PortOf(wanted[id])
  {
    forall i | i in now.listeners
      ensures now.listeners[i].port != PortOf(wanted[id])
    {
      assert now.listeners[i].port == PortOf(wanted[i]);
    }
  }

  lemma StartingStep(mid: Server, wanted: map<Id, Tunnel>, foreign: set<Port>, rest: set<Id>, id: Id, was: Server, now: Server)
    requires Starting(mid, wanted, foreign, rest, was) && id in rest && rest <= wanted.Keys
    requires now == if id !in was.listeners && wanted[id].publicPort != 0 && PortOf(wanted[id]) !in foreign
                    then Server(was.listeners[id := Listener(was.next, PortOf(wanted[id]))], was.cancels, was.next + 1)
                    else was
    ensures Starting(mid, wanted, foreign, rest - {id}, now)
  {
    StartableStep(wanted, rest, id, foreign);
    if id in was.listeners {
      assert id in mid.listeners;
    }
  }

  lemma StartableStep(wanted: map<Id, Tunnel>, rest: set<Id>, id: Id, foreign: set<Port>)
    requires id in rest && rest <= wanted.Keys
    ensures Startable(wanted, wanted.Keys - (rest - {id}), foreign)
         == Startable(wanted, wanted.Keys - rest, foreign)
            + if wanted[id].publicPort != 0 && PortOf(wanted[id]) !in foreign then {id} else {}
  {
    assert wanted.Keys - (rest - {id}) == (wanted.Keys - rest) + {id};
  }

  lemma PassDone(before: Server, mid: Server, wanted: map<Id, Tunnel>, foreign: set<Port>, now: Server)
    requires Valid(before) && Stopped(before, wanted, mid) && Starting(mid, wanted, foreign, {}, now)
    ensures Synced(before, wanted, foreign, now) && Valid(now)
  {
    RunningIs(before, wanted, foreign, mid.listeners.Keys);
    assert Kept(before, now);
    assert Fresh(before, wanted, now);
    SyncedValid(before, wanted, foreign, now);
  }

  lemma RunningIs(before: Server, wanted: map<Id, Tunnel>, foreign: set<Port>, kept: set<Id>)
    requires kept == before.listeners.Keys * wanted.Keys
    ensures Running(before, wanted, foreign) == kept + Startable(wanted, wanted.Keys - {}, foreign)
  {}

  lemma SyncedValid(before: Server, wanted: map<Id, Tunnel>, foreign: set<Port>, after: Server)
    requires Valid(before) && Synced(before, wanted, foreign, after)
    ensures Valid(after)
  {
    var gone := Serials(before.listeners, before.listeners.Keys - wanted.Keys);
    forall n | n in after.cancels
      ensures n < after.next && after.cancels[n] == 1
    {}
  }

  // ---- What a pass achieves ---------------------------------------------------------------------------

  /** Listeners are only ever started for tunnels with a port of their own. */
  ghost predicate Ported(listeners: map<Id, Listener>) {
    forall id :: id in listeners ==> listeners[id].port.number != 0
  }

  /**
   From any listeners on the ports of their tunnels, whichever tunnels those are, a pass
   leaves a listener for exactly the enabled tunnels with a nonzero port, each on that port -
   except those whose port someone else holds and that had no listener before.
   */
  lemma Converges(before: Server, wanted: map<Id, Tunnel>, foreign: set<Port>, after: Server, id: Id)
    requires Ported(before.listeners) && Compatible(before.listeners, wanted) && Synced(before, wanted, foreign, after)
    ensures id in after.listeners <==>
              id in wanted && wanted[id].publicPort != 0 && (PortOf(wanted[id]) !in foreign || id in before.listeners)
    ensures id in after.listeners ==> after.listeners[id].port == PortOf(wanted[id])
    ensures id in after.listeners ==>
              && after.listeners[id].port.number == wanted[id].publicPort
              && (after.listeners[id].port.udp <==> wanted[id].protocol == "udp")
  {
    if id in before.listeners && id in wanted {
      assert before.listeners[id].port == PortOf(wanted[id]);
    }
  }

  /** A second pass over the same rows changes nothing, if whoever held a port still does. */
  lemma SecondPassDoesNothing(before: Server, wanted: map<Id, Tunnel>, foreign: set<Port>, after: Server,
                              foreignNow: set<Port>, again: Server)
    requires Synced(before, wanted, foreign, after) && Synced(after, wanted, foreignNow, again)
    requires foreign <= foreignNow
    ensures again.listeners == after.listeners && again.cancels == after.cancels
  {
    assert after.listeners.Keys <= wanted.Keys;
    assert Running(after, wanted, foreignNow) == after.listeners.Keys;
    assert after.listeners.Keys - wanted.Keys == {};
    assert Serials(after.listeners, {}) == {};
  }

  /** A new tunnel gets the port of a just-deleted one in the same pass, and the old listener is stopped. */
  lemma PortTakeover(before: Server, wanted: map<Id, Tunnel>, foreign: set<Port>, after: Server, gone: Id, successor: Id)
    requires Valid(before) && Synced(before, wanted, foreign, after)
    requires gone in before.listeners && gone !in wanted && successor in wanted && successor !in before.listeners
    requires PortOf(wanted[successor]) == before.listeners[gone].port && PortOf(wanted[successor]) !in foreign
    requires wanted[successor].publicPort != 0
    ensures gone !in after.listeners && after.cancels[before.listeners[gone].serial] == 1
    ensures successor in after.listeners && after.listeners[successor].port == before.listeners[gone].port
  {
    SyncedValid(before, wanted, foreign, after);
    assert before.listeners[gone].serial in Serials(before.listeners, before.listeners.Keys - wanted.Keys);
  }
}
