/**
 The table of client sessions: a reconnecting machine replaces its old session, whose
 handler wakes up later and must not take its successor out of the table.
 */
module Sessions {
  import opened Store

  /** What the lock protects: the table by client id, and which sessions are closed. */
  datatype Table = Table(entries: map<Id, nat>, closed: set<nat>)

  function Replace(t: Table, clientId: Id, session: nat): Table {
    Table(t.entries[clientId := session], if clientId in t.entries then t.closed + {t.entries[clientId]} else t.closed)
  }

  function Forget(t: Table, clientId: Id, session: nat): Table {
    if clientId in t.entries && t.entries[clientId] == session then t.(entries := t.entries - {clientId}) else t
  }

  class Hub {
    var sessions: map<Id, nat>
    var closed: set<nat>

    ghost function State(): Table
      reads this
    {
      Table(sessions, closed)
    }

    constructor ()
      ensures State() == Table(map[], {})
    {
      sessions, closed := map[], {};
    }

    method CloseSession(session: nat)
      modifies this`closed
      ensures closed == old(closed) + {session}
    {
      closed := closed + {session};
    }

    /** handleConn, first locked section. */
    method Register(clientId: Id, session: nat)
      modifies this
      ensures State() == Replace(old(State()), clientId, session)
    {
      if clientId in sessions {
        CloseSession(sessions[clientId]);
      }
      sessions := sessions[clientId := session];
    }

    /** handleConn, last locked section, reached once the handler's own session is closed. */
    method Unregister(clientId: Id, session: nat)
      requires session in closed
      modifies this
      ensures State() == Forget(old(State()), clientId, session)
    {
      if clientId in sessions && sessions[clientId] == session {
        sessions := sessions - {clientId};
      }
    }
  }

  // ---- Interleavings ------------------------------------------------------------------------------

  /** With what the code does not keep: whose session is whose, who registered last, whose handler is done. */
  datatype System = System(table: Table, next: nat, owner: map<nat, Id>, registered: set<nat>,
                           newest: map<Id, nat>, cleaned: set<nat>)

  const Boot := System(Table(map[], {}), 0, map[], {}, map[], {})

  datatype Event =
    | Open(clientId: Id)         // authenticated, session established, not in the table yet
    | Register(session: nat)
    | Drop(session: nat)         // the session closes for whatever reason, at any moment
    | Cleanup(session: nat)      // its handler wakes up

  function Step(s: System, e: Event): System {
    match e
    case Open(clientId) => s.(next := s.next + 1, owner := s.owner[s.next := clientId])
    case Register(n) =>
      if n !in s.owner || n in s.registered then s
      else s.(table := Replace(s.table, s.owner[n], n), registered := s.registered + {n},
              newest := s.newest[s.owner[n] := n])
    case Drop(n) => if n in s.owner then s.(table := s.table.(closed := s.table.closed + {n})) else s
    case Cleanup(n) =>
      if n !in s.registered || n !in s.owner || n !in s.table.closed || n in s.cleaned then s
      else s.(table := Forget(s.table, s.owner[n], n), cleaned := s.cleaned + {n})
  }

  function Run(events: seq<Event>): System {
    if events == [] then Boot else Step(Run(events[..|events| - 1]), events[|events| - 1])
  }

  /** One client's entry. */
  predicate EntryInv(s: System, c: Id) {
    && (c in s.newest ==> s.newest[c] in s.registered && s.newest[c] in s.owner && s.owner[s.newest[c]] == c)
    && (c in s.table.entries <==> c in s.newest && s.newest[c] !in s.cleaned)
    && (c in s.table.entries ==> s.table.entries[c] == s.newest[c])
  }

  /** One session. */
  predicate SessionInv(s: System, n: nat) {
    && (n in s.registered ==> n in s.owner && s.owner[n] in s.newest)
    && (n in s.registered && n != s.newest[s.owner[n]] ==> n in s.table.closed)
    && (n in s.cleaned ==> n in s.registered && n in s.table.closed)
    && (n in s.owner ==> n < s.next)
  }

  /** Each client's entry and each session, given the entry of its own client. */
  lemma EntryStep(s: System, e: Event, t: System, c: Id)
    requires EntryInv(s, c) && t == Step(s, e)
    requires forall n :: SessionInv(s, n)
    ensures EntryInv(t, c)
  {
    match e
    case Open(clientId) => assert SessionInv(s, s.next);
    case Register(n) => assert SessionInv(s, n);
    case Drop(n) =>
    case Cleanup(n) =>
  }

  lemma SessionStep(s: System, e: Event, t: System, n: nat)
    requires SessionInv(s, n) && t == Step(s, e)
    requires forall c :: EntryInv(s, c)
    ensures SessionInv(t, n)
  {
    match e
    case Open(clientId) =>
    case Register(m) =>
      if t != s && n in s.registered && s.owner[n] == s.owner[m] && n == s.newest[s.owner[m]] && n !in s.table.closed {
        assert EntryInv(s, s.owner[m]);
      }
    case Drop(m) =>
    case Cleanup(m) =>
  }

  lemma {:induction false} RunKeeps(events: seq<Event>)
    ensures forall c :: EntryInv(Run(events), c)
    ensures forall n :: SessionInv(Run(events), n)
  {
    if events != [] {
      var s, e := Run(events[..|events| - 1]), events[|events| - 1];
      RunKeeps(events[..|events| - 1]);
      forall c ensures EntryInv(Run(events), c) {
        EntryStep(s, e, Run(events), c);
      }
      forall n ensures SessionInv(Run(events), n) {
        SessionStep(s, e, Run(events), n);
      }
    }
  }

  /**
   Over every interleaving: all registered sessions of a client but the newest are closed;
   the table's entry is the newest or absent; it is absent exactly if no session was ever
   registered or the newest closed and its own handler has cleaned up.
   */
  lemma NewestOrAbsent(events: seq<Event>, c: Id, n: nat)
    ensures var s := Run(events);
            && (n in s.registered ==> n in s.owner)
            && (n in s.registered && s.owner[n] == c && n !in s.table.closed ==> c in s.newest && n == s.newest[c])
            && (c in s.table.entries ==> c in s.newest && s.table.entries[c] == s.newest[c])
            && (c !in s.table.entries <==>
                  c in s.newest ==> s.newest[c] in s.table.closed && s.newest[c] in s.cleaned)
  {
    RunKeeps(events);
    var s := Run(events);
    assert EntryInv(s, c) && SessionInv(s, n);
    if c in s.newest {
      assert SessionInv(s, s.newest[c]);
    }
  }

  /** A late handler of a replaced session changes nothing in the table. */
  lemma StaleHandlerIsHarmless(events: seq<Event>, n: nat)
    requires var s := Run(events);
             n in s.registered && n in s.owner && s.owner[n] in s.newest && n != s.newest[s.owner[n]]
    ensures Step(Run(events), Cleanup(n)).table == Run(events).table
  {
    RunKeeps(events);
    assert EntryInv(Run(events), Run(events).owner[n]);
  }

  /** A machine that disconnects is out of the table once its handler has woken up. */
  lemma DisconnectedIsForgotten(events: seq<Event>, c: Id)
    requires c in Run(events).table.entries
    ensures var n := Run(events).table.entries[c];
            var t := Step(Step(Run(events), Drop(n)), Cleanup(n));
            c !in t.table.entries && t.table.entries == Run(events).table.entries - {c} && n in t.table.closed
  {
    RunKeeps(events);
    assert EntryInv(Run(events), c) && SessionInv(Run(events), Run(events).table.entries[c]);
  }

  /** A machine that just reconnected is reachable, whatever its older sessions' handlers do, until it drops itself. */
  lemma {:induction false} ReconnectIsReachable(events: seq<Event>, c: Id)
    requires c in Run(events).newest && Run(events).newest[c] !in Run(events).table.closed
    ensures c in Run(events).table.entries && Run(events).table.entries[c] == Run(events).newest[c]
  {
    RunKeeps(events);
    assert EntryInv(Run(events), c) && SessionInv(Run(events), Run(events).newest[c]);
  }
}
