/**
 The listeners over the life of the server: admins edit tunnels, the reconcile loop makes
 its passes - check for shutdown, read the rows, take the lock - and Shutdown closes the
 channel and sweeps, possibly several times, at any point in between.
 */
module Lifecycle {
  import opened Store
  import opened Listeners

  /** Where the reconcile loop, which is one goroutine, is in its pass. */
  datatype Pass = Idle | Checked | Fetched(wanted: map<Id, Tunnel>)

  /** `ever` remembers the port of every tunnel there ever was: no statement updates it, no id is used twice. */
  datatype System = System(db: map<Id, Tunnel>, ever: map<Id, Port>, server: Server, closed: bool, pass: Pass)

  const Boot := System(map[], map[], Server(map[], multiset{}, 0), false, Idle)

  datatype Event =
    | Insert(id: Id, tunnel: Tunnel)
    | Change(id: Id, tunnel: Tunnel)     // anything but the protocol and the public port
    | Remove(ids: set<Id>)
    | Begin                              // a tick: proceed unless the shutdown channel is closed
    | Fetch(ok: bool)                    // ListEnabledTunnels
    | Locked(foreign: set<Port>, after: Server)
    | Close                              // close(shutdownCh), once
    | Sweep                              // Shutdown under the listeners' lock

  function Enabled(tunnels: map<Id, Tunnel>): map<Id, Tunnel> {
    map id | id in tunnels && tunnels[id].enabled :: tunnels[id]
  }

  ghost predicate Enters(s: System, e: Event) {
    e.Locked? && s.pass.Fetched? && Synced(s.server, s.pass.wanted, e.foreign, e.after)
  }

  ghost function Step(s: System, e: Event): System {
    match e
    case Insert(id, t) =>
      if id in s.ever || !PortFree(s.db, t.publicPort) then s
      else s.(db := s.db[id := t], ever := s.ever[id := PortOf(t)])
    case Change(id, t) =>
      if id in s.db && t.publicPort == s.db[id].publicPort && t.protocol == s.db[id].protocol
      then s.(db := s.db[id := t]) else s
    case Remove(ids) => s.(db := s.db - ids)
    case Begin => if s.pass.Idle? && !s.closed then s.(pass := Checked) else s
    case Fetch(ok) => if !s.pass.Checked? then s else s.(pass := if ok then Fetched(Enabled(s.db)) else Idle)
    case Locked(_, after) => if Enters(s, e) then s.(server := after, pass := Idle) else s
    case Close => s.(closed := true)
    case Sweep => if s.closed then s.(server := Swept(s.server)) else s
  }

  ghost function Run(s: System, events: seq<Event>): System {
    if events == [] then s else Step(Run(s, events[..|events| - 1]), events[|events| - 1])
  }

  // ---- Invariant -------------------------------------------------------------------------------------

  ghost predicate Known(rows: map<Id, Tunnel>, ever: map<Id, Port>) {
    UniquePorts(rows) && forall id :: id in rows ==> id in ever && ever[id] == PortOf(rows[id])
  }

  ghost predicate Inv(s: System) {
    && Known(s.db, s.ever)
    && (s.pass.Fetched? ==> Known(s.pass.wanted, s.ever))
    && OnKnownPorts(s.server.listeners, s.ever)
    && Valid(s.server)
  }

  ghost predicate OnKnownPorts(listeners: map<Id, Listener>, ever: map<Id, Port>) {
    Ported(listeners) && forall id :: id in listeners ==> id in ever && listeners[id].port == ever[id]
  }

  /** The rows a pass works from suit the listeners, however stale they are. */
  lemma AlwaysCompatible(listeners: map<Id, Listener>, rows: map<Id, Tunnel>, ever: map<Id, Port>)
    requires OnKnownPorts(listeners, ever) && Known(rows, ever)
    ensures Compatible(listeners, rows)
  {}

  lemma LockedKeeps(s: System, e: Event, t: System)
    requires Inv(s) && Enters(s, e) && t == Step(s, e)
    ensures Inv(t)
  {
    var rows := s.pass.wanted;
    AlwaysCompatible(s.server.listeners, rows, s.ever);
    SyncedValid(s.server, rows, e.foreign, e.after);
    forall id | id in e.after.listeners
      ensures id in s.ever && e.after.listeners[id].port == s.ever[id] && e.after.listeners[id].port.number != 0
    {
      Converges(s.server, rows, e.foreign, e.after, id);
    }
  }

  lemma InsertKeeps(rows: map<Id, Tunnel>, ever: map<Id, Port>, id: Id, t: Tunnel)
    requires Known(rows, ever) && id !in ever && PortFree(rows, t.publicPort)
    ensures Known(rows[id := t], ever[id := PortOf(t)])
  {}

  lemma ChangeKeeps(rows: map<Id, Tunnel>, ever: map<Id, Port>, id: Id, t: Tunnel)
    requires Known(rows, ever) && id in rows && t.publicPort == rows[id].publicPort && t.protocol == rows[id].protocol
    ensures Known(rows[id := t], ever)
  {}

  lemma StepKeeps(s: System, e: Event, t: System)
    requires Inv(s) && t == Step(s, e)
    ensures Inv(t)
  {
    match e
    case Insert(id, tunnel) => if t != s { InsertKeeps(s.db, s.ever, id, tunnel); }
    case Change(id, tunnel) => if t != s { ChangeKeeps(s.db, s.ever, id, tunnel); }
    case Remove(ids) =>
    case Begin =>
    case Fetch(ok) =>
    case Locked(_, _) => if Enters(s, e) { LockedKeeps(s, e, t); }
    case Close =>
    case Sweep => SweptValid(s.server);
  }

  lemma {:induction false} RunKeepsFrom(s: System, events: seq<Event>)
    requires Inv(s)
    ensures Inv(Run(s, events))
  {
    if events != [] {
      RunKeepsFrom(s, events[..|events| - 1]);
      StepKeeps(Run(s, events[..|events| - 1]), events[|events| - 1], Run(s, events));
    }
  }

  lemma RunKeeps(events: seq<Event>)
    ensures Inv(Run(Boot, events))
  {
    RunKeepsFrom(Boot, events);
  }

  // ---- Results -------------------------------------------------------------------------------------------

  /** Over any run of edits, passes and repeated shutdowns, each listener's cancel runs at most once. */
  lemma CancelAtMostOnce(events: seq<Event>, serial: nat)
    ensures Run(Boot, events).server.cancels[serial] <= 1
  {
    RunKeeps(events);
    assert Valid(Run(Boot, events).server);
  }

  /** A stopped listener never runs again, and a running one has never been cancelled. */
  lemma RunningNeverCancelled(events: seq<Event>, id: Id)
    requires id in Run(Boot, events).server.listeners
    ensures Run(Boot, events).server.cancels[Run(Boot, events).server.listeners[id].serial] == 0
  {
    RunKeeps(events);
  }

  /** In every reachable state, one undisturbed pass makes the listeners follow the enabled tunnels exactly. */
  lemma PassCatchesUp(events: seq<Event>, foreign: set<Port>, after: Server, id: Id)
    requires var s := Run(Boot, events);
             !s.closed && s.pass.Idle? && Synced(s.server, Enabled(s.db), foreign, after)
    requires forall i :: i in Run(Boot, events).db ==> PortOf(Run(Boot, events).db[i]) !in foreign
    ensures var s := Run(Boot, events);
            var t := Step(Step(Step(s, Begin), Fetch(true)), Locked(foreign, after));
            && t == s.(server := after)
            && (id in t.server.listeners <==> id in s.db && s.db[id].enabled && s.db[id].publicPort != 0)
            && (id in t.server.listeners ==>
                  && t.server.listeners[id].port.number == s.db[id].publicPort
                  && (t.server.listeners[id].port.udp <==> s.db[id].protocol == "udp"))
  {
    RunKeeps(events);
    var s := Run(Boot, events);
    AlwaysCompatible(s.server.listeners, Enabled(s.db), s.ever);
    Converges(s.server, Enabled(s.db), foreign, after, id);
  }

  /** How often a pass took the lock during some steps. */
  ghost function Passes(s: System, events: seq<Event>): nat {
    if events == [] then 0
    else
      var before := events[..|events| - 1];
      Passes(s, before) + if Enters(Run(s, before), events[|events| - 1]) then 1 else 0
  }

  function Window(s: System): nat {
    if s.pass.Idle? then 0 else 1
  }

  /** Once the channel is closed, only a pass that was already past the check can still take the lock. */
  lemma {:induction false} AtMostOnePassAfterClose(s: System, events: seq<Event>)
    requires s.closed
    ensures Run(s, events).closed
    ensures Passes(s, events) + Window(Run(s, events)) <= Window(s)
    ensures Passes(s, events) <= 1 && (s.pass.Idle? ==> Passes(s, events) == 0)
  {
    if events != [] {
      AtMostOnePassAfterClose(s, events[..|events| - 1]);
      ClosedStep(Run(s, events[..|events| - 1]), events[|events| - 1], Run(s, events));
    }
  }

  lemma ClosedStep(s: System, e: Event, t: System)
    requires s.closed && t == Step(s, e)
    ensures t.closed
    ensures (if Enters(s, e) then 1 else 0) + Window(t) <= Window(s)
    ensures !Enters(s, e) && s.server.listeners == map[] ==> t.server.listeners == map[]
  {}

  /** If none was, the listeners stay empty for good after a sweep. */
  lemma {:induction false} EmptyForever(s: System, events: seq<Event>)
    requires s.closed && s.pass.Idle? && s.server.listeners == map[]
    ensures Run(s, events).server.listeners == map[]
  {
    if events != [] {
      EmptyForever(s, events[..|events| - 1]);
      AtMostOnePassAfterClose(s, events[..|events| - 1]);
      ClosedStep(Run(s, events[..|events| - 1]), events[|events| - 1], Run(s, events));
    }
  }

  /** Shutdown as a whole: closed with no pass in the window, then swept, whatever else happens before and after. */
  lemma ShutdownIsFinal(s: System, before: seq<Event>, after: seq<Event>)
    requires s.pass.Idle?
    ensures Run(Step(Run(Step(s, Close), before), Sweep), after).server.listeners == map[]
  {
    var closed := Step(s, Close);
    AtMostOnePassAfterClose(closed, before);
    EmptyForever(Step(Run(closed, before), Sweep), after);
  }

  // ---- The window --------------------------------------------------------------------------------------------

  /** What the pass under way can still open: anything it has yet to read, or the ported rows it has read. */
  ghost predicate InWindow(s: System) {
    s.pass.Checked? || (s.pass.Fetched? && exists id :: id in s.pass.wanted && s.pass.wanted[id].publicPort != 0)
  }

  /**
   The exact condition: after a sweep some continuation has listeners again if and only if
   a pass is past the check and has yet to read its rows, or has read one with a port.
   */
  lemma WindowReopens(s: System)
    requires Inv(s) && s.closed && s.server.listeners == map[]
    ensures (exists events :: Run(s, events).server.listeners != map[]) <==> InWindow(s)
  {
    if InWindow(s) {
      var events := Reopen(s);
      assert Run(s, events).server.listeners != map[];
    } else {
      forall events ensures Run(s, events).server.listeners == map[] {
        ClosedForGood(s, events);
      }
    }
  }

  lemma {:induction false} ClosedForGood(s: System, events: seq<Event>)
    requires s.closed && s.server.listeners == map[] && !InWindow(s)
    ensures var t := Run(s, events); t.closed && t.server.listeners == map[] && !InWindow(t)
  {
    if events != [] {
      ClosedForGood(s, events[..|events| - 1]);
      OutsideStep(Run(s, events[..|events| - 1]), events[|events| - 1], Run(s, events));
    }
  }

  lemma OutsideStep(s: System, e: Event, t: System)
    requires s.closed && s.server.listeners == map[] && !InWindow(s) && t == Step(s, e)
    ensures t.closed && t.server.listeners == map[] && !InWindow(t)
  {
    if Enters(s, e) {
      assert Running(s.server, s.pass.wanted, e.foreign) == {};
      assert e.after.listeners.Keys == {};
    }
  }

  lemma RunSnoc(s: System, events: seq<Event>, e: Event)
    ensures Run(s, events + [e]) == Step(Run(s, events), e)
  {
    assert (events + [e])[..|events|] == events;
  }

  /** A continuation that opens one listener. */
  lemma Reopen(s: System) returns (events: seq<Event>)
    requires Inv(s) && s.closed && s.server.listeners == map[] && InWindow(s)
    ensures Run(s, events).server.listeners != map[]
  {
    if s.pass.Checked? {
      events := InsertAndFetch(s);
      RunKeepsFrom(s, events);
    } else {
      events := [];
    }
    var t := Run(s, events);
    var e := OpenOne(t);
    RunSnoc(s, events, e);
    events := events + [e];
  }

  lemma OpenOne(s: System) returns (e: Event)
    requires Inv(s) && s.server.listeners == map[] && s.pass.Fetched? && InWindow(s)
    ensures Step(s, e).server.listeners != map[]
  {
    var rows := s.pass.wanted;
    var id :| id in rows && rows[id].publicPort != 0;
    var foreign := set i | i in rows && i != id :: PortOf(rows[i]);
    var after := s.server.(listeners := map[id := Listener(s.server.next, PortOf(rows[id]))], next := s.server.next + 1);
    OnlyOneStarts(s.server, rows, foreign, id, after);
    e := Locked(foreign, after);
    EntersWith(s, foreign, after);
    assert id in after.listeners;
  }

  lemma EntersWith(s: System, foreign: set<Port>, after: Server)
    requires s.pass.Fetched? && Synced(s.server, s.pass.wanted, foreign, after)
    ensures Step(s, Locked(foreign, after)).server == after
  {}

  /** A pass that has yet to read its rows reads one that is created now. */
  lemma InsertAndFetch(s: System) returns (events: seq<Event>)
    requires s.pass.Checked?
    ensures var t := Run(s, events);
            t.server == s.server && t.pass.Fetched? && InWindow(t)
  {
    var id := FreshId(s.ever.Keys);
    var row := NewTunnel(id, "", "", 1, 1, "tcp");
    var t1 := Step(s, Remove(s.db.Keys));
    var t2 := Step(t1, Insert(id, row));
    assert t1.db == map[];
    RunSnoc(s, [], Remove(s.db.Keys));
    RunSnoc(s, [] + [Remove(s.db.Keys)], Insert(id, row));
    RunSnoc(s, [] + [Remove(s.db.Keys)] + [Insert(id, row)], Fetch(true));
    events := [] + [Remove(s.db.Keys)] + [Insert(id, row)] + [Fetch(true)];
    assert t2.db == map[id := row];
    assert id in Step(t2, Fetch(true)).pass.wanted;
  }

  /** There is always an id that was never used. */
  lemma {:induction false} FreshId(ids: set<Id>) returns (id: Id)
    ensures id !in ids && forall i :: i in ids ==> |i.text| < |id.text|
    decreases |ids|
  {
    if ids == {} {
      id := Uuid("");
    } else {
      var some :| some in ids;
      var other := FreshId(ids - {some});
      id := Uuid(other.text + some.text + "+");
    }
  }

  lemma OnlyOneStarts(server: Server, rows: map<Id, Tunnel>, foreign: set<Port>, id: Id, after: Server)
    requires server.listeners == map[] && UniquePorts(rows) && id in rows && rows[id].publicPort != 0
    requires foreign == set i | i in rows && i != id :: PortOf(rows[i])
    requires after == server.(listeners := map[id := Listener(server.next, PortOf(rows[id]))], next := server.next + 1)
    ensures Synced(server, rows, foreign, after)
  {
    assert Running(server, rows, foreign) == {id};
    assert server.listeners.Keys - rows.Keys == {};
    assert Serials(server.listeners, {}) == {};
  }

  /** Both windows are reached from a fresh start: a tick, then a whole shutdown. */
  lemma WindowIsReached(id: Id, tunnel: Tunnel)
    requires tunnel.enabled && tunnel.publicPort != 0
    ensures var s := Run(Boot, [Begin] + [Close] + [Sweep]);
            Inv(s) && s.closed && s.server.listeners == map[] && s.pass.Checked?
    ensures var s := Run(Boot, [Insert(id, tunnel)] + [Begin] + [Fetch(true)] + [Close] + [Sweep]);
            Inv(s) && s.closed && s.server.listeners == map[] && s.pass == Fetched(map[id := tunnel])
  {
    RunKeeps([Begin] + [Close] + [Sweep]);
    RunSnoc(Boot, [Begin] + [Close], Sweep);
    RunSnoc(Boot, [Begin], Close);
    RunSnoc(Boot, [], Begin);
    assert [] + [Begin] == [Begin];
    var events := [Insert(id, tunnel)] + [Begin] + [Fetch(true)];
    ReadBeforeClose(id, tunnel);
    RunKeeps(events + [Close] + [Sweep]);
    RunSnoc(Boot, events, Close);
    RunSnoc(Boot, events + [Close], Sweep);
  }

  lemma ReadBeforeClose(id: Id, tunnel: Tunnel)
    requires tunnel.enabled
    ensures var s := Run(Boot, [Insert(id, tunnel)] + [Begin] + [Fetch(true)]);
            s.server == Boot.server && s.pass == Fetched(map[id := tunnel])
  {
    RunSnoc(Boot, [], Insert(id, tunnel));
    assert [] + [Insert(id, tunnel)] == [Insert(id, tunnel)];
    RunSnoc(Boot, [Insert(id, tunnel)], Begin);
    RunSnoc(Boot, [Insert(id, tunnel)] + [Begin], Fetch(true));
    assert Run(Boot, [Insert(id, tunnel)] + [Begin]).db == map[id := tunnel];
    assert Enabled(map[id := tunnel]) == map[id := tunnel];
  }
}
