/**
 Pushing a machine's tunnel list down its control stream, and the machine's own copy of
 it. A push is skipped when the fingerprint is the one pushed last; a write may fail
 having delivered nothing, everything, or part of a frame.
 */
module ConfigPush {
  import opened Wrappers
  import opened Store
  import opened Fingerprint

  /** One of the machine's rows, in the order the query lists them. */
  datatype Row = Row(spec: Spec, enabled: bool)

  function Specs(rows: seq<Row>): seq<Spec> {
    if rows == [] then []
    else
      var last := rows[|rows| - 1];
      Specs(rows[..|rows| - 1]) + if last.enabled then [last.spec] else []
  }

  /** The map a machine makes of a list. */
  function MapOf(specs: seq<Spec>): map<Id, Spec> {
    if specs == [] then map[]
    else
      var last := specs[|specs| - 1];
      MapOf(specs[..|specs| - 1])[last.id := last]
  }

  /** With distinct ids the map holds exactly the list. */
  lemma {:induction false} MapOfExact(specs: seq<Spec>)
    requires forall i, j :: 0 <= i < j < |specs| ==> specs[i].id != specs[j].id
    ensures forall k :: 0 <= k < |specs| ==> specs[k].id in MapOf(specs) && MapOf(specs)[specs[k].id] == specs[k]
    ensures forall id :: id in MapOf(specs) ==> exists k :: 0 <= k < |specs| && specs[k].id == id
  {
    if specs != [] {
      var front := specs[..|specs| - 1];
      MapOfExact(front);
      forall k | 0 <= k < |specs|
        ensures specs[k].id in MapOf(specs) && MapOf(specs)[specs[k].id] == specs[k]
      {
        if k < |front| {
          assert front[k] == specs[k];
        }
      }
      forall id | id in MapOf(specs)
        ensures exists k :: 0 <= k < |specs| && specs[k].id == id
      {
        if id in MapOf(front) {
          var k :| 0 <= k < |front| && front[k].id == id;
          assert specs[k].id == id;
        } else {
          assert specs[|specs| - 1].id == id;
        }
      }
    }
  }

  /** How writing a frame to the control stream can go. */
  datatype Outcome = Sent | Lost | Landed | Torn

  /**
   `pushed` is the code's lastPushed; `wire` are the whole frames that reached the
   stream, `read` how many of them the machine has read. After a torn frame it reads no more.
   */
  datatype Session = Session(pushed: string, wire: seq<seq<Spec>>, read: nat, torn: bool)

  const NewSession := Session("", [], 0, false)

  function Push(c: Session, list: seq<Spec>, outcome: Outcome): Session {
    if FingerprintOf(list) == c.pushed then c
    else
      var landed := if c.torn then c.wire else c.wire + [list];
      match outcome
      case Sent => c.(wire := landed, pushed := FingerprintOf(list))
      case Lost => c
      case Landed => c.(wire := landed)
      case Torn => c.(torn := true)
  }

  /** After a frame was cut off, nothing the server writes in the session reaches the machine any more. */
  lemma TornSaysNothing(c: Session, list: seq<Spec>, later: seq<Spec>, outcome: Outcome)
    requires FingerprintOf(list) != c.pushed
    ensures var d := Push(Push(c, list, Torn), later, outcome); d.wire == c.wire && d.torn
  {}

  // ---- The two ends -----------------------------------------------------------------------------------

  class ClientSession {
    var lastPushed: string
    var wire: seq<seq<Spec>>
    var torn: bool
    const working: bool  // whether every write succeeds

    constructor (working: bool)
      ensures lastPushed == "" && wire == [] && !torn && this.working == working
    {
      lastPushed, wire, torn := "", [], false;
      this.working := working;
    }

    /** WriteFrame on the control stream. */
    method Write(list: seq<Spec>) returns (outcome: Outcome)
      modifies this`wire, this`torn
      ensures wire == if (outcome.Sent? || outcome.Landed?) && !old(torn) then old(wire) + [list] else old(wire)
      ensures torn == (old(torn) || outcome.Torn?)
      ensures working ==> outcome.Sent?
    {
      outcome := *;
      if working {
        outcome := Sent;
      }
      match outcome
      case Sent => if !torn { wire := wire + [list]; }
      case Landed => if !torn { wire := wire + [list]; }
      case Lost =>
      case Torn => torn := true;
    }

    /** pushTunnelConfig, once the rows are listed. */
    method PushTunnelConfig(rows: seq<Row>) returns (outcome: Outcome)
      modifies this
      ensures forall read: nat :: Session(lastPushed, wire, read, torn)
                == Push(Session(old(lastPushed), old(wire), read, old(torn)), Specs(rows), outcome)
      ensures FingerprintOf(Specs(rows)) == old(lastPushed) ==> wire == old(wire) && outcome.Sent?
      ensures working && !old(torn) && FingerprintOf(Specs(rows)) != old(lastPushed) ==>
                wire == old(wire) + [Specs(rows)] && lastPushed == FingerprintOf(Specs(rows)) && !torn
    {
      var specs: seq<Spec>, fingerprint := [], "";
      for i := 0 to |rows|
        invariant specs == Specs(rows[..i]) && fingerprint == FingerprintOf(specs)
      {
        assert rows[..i + 1][..i] == rows[..i];
        if rows[i].enabled {
          assert (specs + [rows[i].spec])[..|specs|] == specs;
          specs := specs + [rows[i].spec];
          fingerprint := fingerprint + Entry(rows[i].spec);
        }
      }
      assert rows[..|rows|] == rows;
      if fingerprint == lastPushed {
        return Sent;
      }
      outcome := Write(specs);
      if outcome.Sent? {
        lastPushed := fingerprint;
      }
    }
  }

  class Machine {
    var targets: map<Id, Spec>

    constructor ()
      ensures targets == map[]
    {
      targets := map[];
    }

    /** One turn of readControlStream. */
    method Receive(push: seq<Spec>)
      modifies this
      ensures targets == MapOf(push)
    {
      var next: map<Id, Spec> := map[];
      for i := 0 to |push|
        invariant next == MapOf(push[..i])
      {
        assert push[..i + 1][..i] == push[..i];
        next := next[push[i].id := push[i]];
      }
      assert push[..|push|] == push;
      targets := next;
    }
  }

  // ---- One machine's history -----------------------------------------------------------------------------

  /**
   `rows` are the machine's rows, `ever` every tunnel it ever had. `last` is the list of
   the last successful write of the session; `clean` says no write failed after that one.
   */
  datatype System = System(rows: seq<Row>, ever: map<Id, Spec>, session: Option<Session>, targets: map<Id, Spec>,
                           last: Option<seq<Spec>>, clean: bool)

  const Boot := System([], map[], None, map[], None, true)

  datatype Event =
    | Edit(rows: seq<Row>, ever: map<Id, Spec>)  // any statement, or several
    | Connect
    | Disconnect
    | PushConfig(outcome: Outcome)
    | Deliver                                    // the machine reads one frame

  ghost predicate Rows(rows: seq<Row>, ever: map<Id, Spec>) {
    && (forall k :: 0 <= k < |rows| ==>
          && |rows[k].spec.id.text| == UUID_LENGTH
          && rows[k].spec.id in ever && ever[rows[k].spec.id] == Fixed(rows[k].spec))
    && (forall i, j :: 0 <= i < j < |rows| ==> rows[i].spec.id != rows[j].spec.id)
  }

  ghost predicate Grows(before: map<Id, Spec>, after: map<Id, Spec>) {
    forall id :: id in before ==> id in after && after[id] == before[id]
  }

  function Receive(targets: map<Id, Spec>, c: Session): map<Id, Spec> {
    if c.read < |c.wire| then MapOf(c.wire[c.read]) else targets
  }

  ghost function Step(s: System, e: Event): System {
    match e
    case Edit(rows, ever) => if Rows(rows, ever) && Grows(s.ever, ever) then s.(rows := rows, ever := ever) else s
    case Connect => s.(session := Some(NewSession), last := None, clean := true)
    case Disconnect => s.(session := None, last := None, clean := true)
    case PushConfig(outcome) =>
      if s.session.None? then s
      else
        var c, list := s.session.value, Specs(s.rows);
        if FingerprintOf(list) == c.pushed then s
        else s.(session := Some(Push(c, list, outcome)),
                last := if outcome.Sent? then Some(list) else s.last,
                clean := match outcome case Sent => !c.torn case Lost => s.clean case Landed => false case Torn => false)
    case Deliver =>
      if s.session.None? || s.session.value.read >= |s.session.value.wire| then s
      else s.(targets := Receive(s.targets, s.session.value),
              session := Some(s.session.value.(read := s.session.value.read + 1)))
  }

  ghost function Run(events: seq<Event>): System {
    if events == [] then Boot else Step(Run(events[..|events| - 1]), events[|events| - 1])
  }

  // ---- Invariant --------------------------------------------------------------------------------------------

  /** What the server believes: lastPushed is the fingerprint of the last list it wrote successfully. */
  ghost predicate Believes(c: Session, last: Option<seq<Spec>>, ever: map<Id, Spec>) {
    && (last.None? ==> c.pushed == "")
    && (last.Some? ==> c.pushed == FingerprintOf(last.value) && FromHistory(last.value, ever))
  }

  /** While no write failed, that list is the last one on the stream. */
  ghost predicate Current(c: Session, last: Option<seq<Spec>>) {
    && !c.torn
    && (last.None? ==> c.wire == [])
    && (last.Some? ==> c.wire != [] && c.wire[|c.wire| - 1] == last.value)
  }

  ghost predicate Reading(c: Session, targets: map<Id, Spec>) {
    c.read <= |c.wire| && (c.read > 0 ==> targets == MapOf(c.wire[c.read - 1]))
  }

  ghost predicate Inv(s: System) {
    && Rows(s.rows, s.ever)
    && (s.session.Some? ==>
          && Believes(s.session.value, s.last, s.ever)
          && (s.clean ==> Current(s.session.value, s.last))
          && Reading(s.session.value, s.targets))
  }

  lemma {:induction false} SpecsFromHistory(rows: seq<Row>, ever: map<Id, Spec>)
    requires Rows(rows, ever)
    ensures FromHistory(Specs(rows), ever)
    ensures forall k :: 0 <= k < |Specs(rows)| ==> Row(Specs(rows)[k], true) in rows
  {
    if rows != [] {
      var front, last := rows[..|rows| - 1], rows[|rows| - 1];
      SpecsFromHistory(front, ever);
      assert forall k :: 0 <= k < |Specs(front)| ==> Specs(rows)[k] == Specs(front)[k];
    }
  }

  lemma GrownHistory(list: seq<Spec>, before: map<Id, Spec>, after: map<Id, Spec>)
    requires FromHistory(list, before) && Grows(before, after)
    ensures FromHistory(list, after)
  {}

  lemma PushKeeps(s: System, outcome: Outcome, t: System)
    requires Inv(s) && t == Step(s, PushConfig(outcome))
    ensures Inv(t)
  {
    ListFromHistory(s.rows, s.ever);
    if t != s {
      var c, list := s.session.value, Specs(s.rows);
      PushBelieves(c, s.last, list, outcome, s.ever, Push(c, list, outcome), t.last);
      PushCurrent(c, s.last, list, outcome, s.clean, Push(c, list, outcome), t.last, t.clean);
      PushReading(c, s.targets, list, outcome, Push(c, list, outcome));
    }
  }

  lemma ListFromHistory(rows: seq<Row>, ever: map<Id, Spec>)
    requires Rows(rows, ever)
    ensures FromHistory(Specs(rows), ever)
  {
    SpecsFromHistory(rows, ever);
  }

  lemma PushBelieves(c: Session, last: Option<seq<Spec>>, list: seq<Spec>, outcome: Outcome, ever: map<Id, Spec>,
                     d: Session, now: Option<seq<Spec>>)
    requires Believes(c, last, ever) && FromHistory(list, ever) && FingerprintOf(list) != c.pushed
    requires d == Push(c, list, outcome) && now == if outcome.Sent? then Some(list) else last
    ensures Believes(d, now, ever)
  {}

  lemma PushCurrent(c: Session, last: Option<seq<Spec>>, list: seq<Spec>, outcome: Outcome, clean: bool,
                    d: Session, now: Option<seq<Spec>>, cleanNow: bool)
    requires clean ==> Current(c, last)
    requires FingerprintOf(list) != c.pushed && d == Push(c, list, outcome)
    requires now == if outcome.Sent? then Some(list) else last
    requires cleanNow == match outcome case Sent => !c.torn case Lost => clean case Landed => false case Torn => false
    ensures cleanNow ==> Current(d, now)
  {}

  lemma PushReading(c: Session, targets: map<Id, Spec>, list: seq<Spec>, outcome: Outcome, d: Session)
    requires Reading(c, targets) && d == Push(c, list, outcome)
    ensures Reading(d, targets)
  {}

  lemma StepKeeps(s: System, e: Event, t: System)
    requires Inv(s) && t == Step(s, e)
    ensures Inv(t)
  {
    match e
    case Edit(rows, ever) =>
      if t != s && s.session.Some? && s.last.Some? {
        GrownHistory(s.last.value, s.ever, ever);
      }
    case Connect =>
    case Disconnect =>
    case PushConfig(outcome) => PushKeeps(s, outcome, t);
    case Deliver =>
  }

  lemma {:induction false} RunKeeps(events: seq<Event>)
    ensures Inv(Run(events))
  {
    if events != [] {
      RunKeeps(events[..|events| - 1]);
      StepKeeps(Run(events[..|events| - 1]), events[|events| - 1], Run(events));
    }
  }

  // ---- Results -------------------------------------------------------------------------------------------------

  ghost predicate Drained(s: System) {
    s.session.Some? && !s.session.value.torn && s.session.value.read == |s.session.value.wire|
  }

  /** The machine knows exactly the enabled tunnels, each as its row says. */
  ghost predicate Exact(s: System) {
    s.targets == MapOf(Specs(s.rows))
  }

  lemma PushedIsLast(s: System, t: System)
    requires Inv(s) && s.session.Some? && s.clean && t == Step(s, PushConfig(Sent))
    ensures t.clean && t.session.Some? && Current(t.session.value, t.last) && Believes(t.session.value, t.last, t.ever)
    ensures t.last == if s.last.None? && Specs(s.rows) == [] then None else Some(Specs(s.rows))
  {
    SpecsFromHistory(s.rows, s.ever);
    EmptyFingerprint(Specs(s.rows));
    if s.last.Some? && FingerprintOf(Specs(s.rows)) == s.session.value.pushed {
      Sound(Specs(s.rows), s.last.value, s.ever);
    }
  }

  /** The machine reads n more frames. */
  ghost function DeliverN(s: System, n: nat): System {
    if n == 0 then s else Step(DeliverN(s, n - 1), Deliver)
  }

  lemma {:induction false} DeliverKeeps(s: System, n: nat)
    requires Inv(s)
    ensures Inv(DeliverN(s, n))
    ensures var t := DeliverN(s, n);
            && t.rows == s.rows && t.ever == s.ever && t.last == s.last && t.clean == s.clean
            && t.session.Some? == s.session.Some?
            && (s.session.Some? ==> t.session.value.wire == s.session.value.wire && t.session.value.torn == s.session.value.torn)
  {
    if n > 0 {
      DeliverKeeps(s, n - 1);
      StepKeeps(DeliverN(s, n - 1), Deliver, DeliverN(s, n));
    }
  }

  /**
   In any history, an error-free push - written or skipped - in a session none of whose
   writes has failed since the last good one leaves the machine, once it has read the
   stream, with exactly the enabled tunnels. Only a session that never pushed anything may
   leave it with something else, and then there is no enabled tunnel.
   */
  lemma PushConverges(events: seq<Event>, n: nat)
    requires Run(events).session.Some? && Run(events).clean
    requires Drained(DeliverN(Step(Run(events), PushConfig(Sent)), n))
    ensures var u := DeliverN(Step(Run(events), PushConfig(Sent)), n);
            && u.rows == Run(events).rows
            && (u.last.Some? ==> Exact(u))
            && (u.last.None? ==> Specs(u.rows) == [])
  {
    RunKeeps(events);
    var s := Run(events);
    var t := Step(s, PushConfig(Sent));
    PushedIsLast(s, t);
    PushKeeps(s, Sent, t);
    DeliverKeeps(t, n);
  }

  /** A history in which no write fails with something delivered is clean throughout. */
  lemma {:induction false} CleanUnlessDelivered(events: seq<Event>)
    requires forall k :: 0 <= k < |events| && events[k].PushConfig? ==> events[k].outcome.Sent? || events[k].outcome.Lost?
    ensures Run(events).clean && (Run(events).session.Some? ==> !Run(events).session.value.torn)
  {
    if events != [] {
      CleanUnlessDelivered(events[..|events| - 1]);
    }
  }

  /** ... and a reconnect makes any history clean again. */
  lemma ReconnectIsClean(s: System)
    ensures Step(s, Connect).clean && Step(s, Disconnect).clean
  {}

  /** What exactness means tunnel by tunnel. */
  lemma ExactMeans(events: seq<Event>, k: nat, id: Id)
    requires Exact(Run(events)) && k < |Run(events).rows|
    ensures var s := Run(events);
            && (s.rows[k].enabled ==> s.rows[k].spec.id in s.targets && s.targets[s.rows[k].spec.id] == s.rows[k].spec)
            && (id in s.targets ==> Row(s.targets[id], true) in s.rows && s.targets[id].id == id)
  {
    RunKeeps(events);
    var s := Run(events);
    SpecsFromHistory(s.rows, s.ever);
    MapOfExact(Specs(s.rows));
    if s.rows[k].enabled {
      EnabledListed(s.rows, k);
    }
  }

  lemma {:induction false} EnabledListed(rows: seq<Row>, k: nat)
    requires k < |rows| && rows[k].enabled
    ensures rows[k].spec in Specs(rows)
  {
    if k < |rows| - 1 {
      EnabledListed(rows[..|rows| - 1], k);
    }
  }

  /** What the machine has once it has read the stream. */
  function Heard(c: Session, targets: map<Id, Spec>): map<Id, Spec> {
    if c.wire == [] then targets else MapOf(c.wire[|c.wire| - 1])
  }

  /**
   In any session with an intact stream: a push brings the machine up to date exactly if it
   is not skipped, or what the machine has heard - or, if nothing, still has - was right.
   */
  lemma ExactAfterPushIf(events: seq<Event>, n: nat)
    requires Run(events).session.Some? && !Run(events).session.value.torn
    requires Drained(DeliverN(Step(Run(events), PushConfig(Sent)), n))
    ensures var s := Run(events);
            Exact(DeliverN(Step(s, PushConfig(Sent)), n)) <==>
              || FingerprintOf(Specs(s.rows)) != s.session.value.pushed
              || Heard(s.session.value, s.targets) == MapOf(Specs(s.rows))
  {
    RunKeeps(events);
    ExactFrom(Run(events), Step(Run(events), PushConfig(Sent)), n);
  }

  lemma ExactFrom(s: System, t: System, n: nat)
    requires Inv(s) && s.session.Some? && !s.session.value.torn
    requires t == Step(s, PushConfig(Sent)) && Drained(DeliverN(t, n))
    ensures Exact(DeliverN(t, n)) <==>
              || FingerprintOf(Specs(s.rows)) != s.session.value.pushed
              || Heard(s.session.value, s.targets) == MapOf(Specs(s.rows))
  {
    SentHeard(s, t);
    PushKeeps(s, Sent, t);
    HeardArrives(t, n);
  }

  /** What a push without errors lets the machine hear. */
  lemma SentHeard(s: System, t: System)
    requires s.session.Some? && !s.session.value.torn && t == Step(s, PushConfig(Sent))
    ensures t.rows == s.rows && t.session.Some?
    ensures Heard(t.session.value, t.targets) ==
              if FingerprintOf(Specs(s.rows)) != s.session.value.pushed then MapOf(Specs(s.rows))
              else Heard(s.session.value, s.targets)
  {}

  lemma HeardArrives(t: System, n: nat)
    requires Inv(t) && t.session.Some? && Drained(DeliverN(t, n))
    ensures DeliverN(t, n).rows == t.rows
    ensures DeliverN(t, n).targets == Heard(t.session.value, t.targets)
  {
    DeliverKeeps(t, n);
    if t.session.value.wire == [] {
      NothingToRead(t, n);
    }
  }

  lemma {:induction false} NothingToRead(t: System, n: nat)
    requires t.session.Some? && t.session.value.wire == []
    ensures DeliverN(t, n) == t
  {
    if n > 0 {
      NothingToRead(t, n - 1);
    }
  }

  /** The first push of a session, in particular: it leaves the machine right unless nothing is enabled and it still has targets. */
  lemma FirstPushExactIf(events: seq<Event>, n: nat)
    requires Drained(DeliverN(Step(Step(Run(events), Connect), PushConfig(Sent)), n))
    ensures var s := Run(events);
            Exact(DeliverN(Step(Step(s, Connect), PushConfig(Sent)), n)) <==> Specs(s.rows) != [] || s.targets == map[]
  {
    RunKeeps(events);
    var s := Step(Run(events), Connect);
    StepKeeps(Run(events), Connect, s);
    EmptyFingerprint(Specs(s.rows));
    ExactFrom(s, Step(s, PushConfig(Sent)), n);
  }

  // ---- Where it goes wrong ---------------------------------------------------------------------------------------

  ghost predicate Reachable(s: System) {
    exists events :: Run(events) == s
  }

  lemma ReachStep(s: System, e: Event)
    requires Reachable(s)
    ensures Reachable(Step(s, e))
  {
    var events :| Run(events) == s;
    assert (events + [e])[..|events|] == events;
    assert Run(events + [e]) == Step(s, e);
  }

  /** A tunnel list was pushed, then a change whose write failed after delivering, then the change was reverted. */
  ghost function StaleRun(a: Spec): System {
    var changed := a.(proxyProtocol := !a.proxyProtocol);
    var ever := map[a.id := Fixed(a)];
    var s1 := Step(Step(Step(Boot, Connect), Edit([Row(a, true)], ever)), PushConfig(Sent));
    var s2 := Step(Step(s1, Edit([Row(changed, true)], ever)), PushConfig(Landed));
    Step(Step(Step(s2, Edit([Row(a, true)], ever)), Deliver), Deliver)
  }

  lemma OneRow(a: Spec)
    ensures Specs([Row(a, true)]) == [a] && MapOf([a]) == map[a.id := a]
    ensures FingerprintOf([a]) == Entry(a)
  {
    assert [Row(a, true)][..0] == [] && [a][..0] == [];
    Single(a);
  }

  lemma DifferentFlags(a: Spec, b: Spec)
    requires b == a.(proxyProtocol := !a.proxyProtocol)
    ensures Entry(a) != Entry(b)
  {
    assert Head(a) == Head(b);
    assert Entry(a)[|Head(a)|] == Flag(a.proxyProtocol)[0] && Entry(b)[|Head(a)|] == Flag(b.proxyProtocol)[0];
  }

  /** One edit and one push of a single tunnel. */
  lemma EditAndPush(s: System, a: Spec, ever: map<Id, Spec>, outcome: Outcome)
    requires s.session.Some? && !s.session.value.torn && s.session.value.pushed != Entry(a)
    requires |a.id.text| == UUID_LENGTH && ever == map[a.id := Fixed(a)] && Grows(s.ever, ever)
    requires outcome.Sent? || outcome.Landed?
    ensures var t := Step(Step(s, Edit([Row(a, true)], ever)), PushConfig(outcome));
            var c := s.session.value;
            && t.rows == [Row(a, true)] && t.ever == ever && t.targets == s.targets
            && t.session == Some(c.(wire := c.wire + [[a]], pushed := if outcome.Sent? then Entry(a) else c.pushed))
  {
    OneRow(a);
    assert Rows([Row(a, true)], ever);
  }

  lemma StaleRunState(a: Spec)
    requires |a.id.text| == UUID_LENGTH
    ensures var s := StaleRun(a);
            var b := a.(proxyProtocol := !a.proxyProtocol);
            && s.rows == [Row(a, true)] && s.targets == map[a.id := b]
            && s.session == Some(Session(Entry(a), [[a], [b]], 2, false))
  {
    var b := a.(proxyProtocol := !a.proxyProtocol);
    var ever := map[a.id := Fixed(a)];
    OneRow(b);
    DifferentFlags(a, b);
    EditAndPush(Step(Boot, Connect), a, ever, Sent);
    var s1 := Step(Step(Step(Boot, Connect), Edit([Row(a, true)], ever)), PushConfig(Sent));
    EditAndPush(s1, b, ever, Landed);
    var s2 := Step(Step(s1, Edit([Row(b, true)], ever)), PushConfig(Landed));
    assert [] + [[a]] + [[b]] == [[a], [b]];
    StaleEnd(s2, a, b, ever);
  }

  lemma StaleEnd(s2: System, a: Spec, b: Spec, ever: map<Id, Spec>)
    requires |a.id.text| == UUID_LENGTH && ever == map[a.id := Fixed(a)] && s2.ever == ever
    requires s2.session == Some(Session(Entry(a), [[a], [b]], 0, false)) && MapOf([b]) == map[a.id := b]
    ensures var s := Step(Step(Step(s2, Edit([Row(a, true)], ever)), Deliver), Deliver);
            && s.rows == [Row(a, true)] && s.targets == map[a.id := b]
            && s.session == Some(Session(Entry(a), [[a], [b]], 2, false))
  {
    assert Rows([Row(a, true)], ever);
  }

  /**
   After a write that failed although it was delivered, followed by a change back to what
   was pushed before, every push is skipped and the machine keeps the wrong list.
   */
  lemma FailedWriteLeavesStaleTargets(a: Spec, outcome: Outcome)
    requires |a.id.text| == UUID_LENGTH
    ensures Reachable(StaleRun(a)) && Drained(StaleRun(a)) && !Exact(StaleRun(a))
    ensures Step(StaleRun(a), PushConfig(outcome)) == StaleRun(a)
  {
    StaleRunState(a);
    OneRow(a);
    StaleRunReachable(a);
    assert StaleRun(a).targets[a.id] != a;
  }

  lemma StaleRunReachable(a: Spec)
    ensures Reachable(StaleRun(a))
  {
    var changed := a.(proxyProtocol := !a.proxyProtocol);
    var ever := map[a.id := Fixed(a)];
    assert Run([]) == Boot;
    ReachStep(Boot, Connect);
    var s0 := Step(Boot, Connect);
    ReachStep(s0, Edit([Row(a, true)], ever));
    ReachStep(Step(s0, Edit([Row(a, true)], ever)), PushConfig(Sent));
    var s1 := Step(Step(s0, Edit([Row(a, true)], ever)), PushConfig(Sent));
    ReachStep(s1, Edit([Row(changed, true)], ever));
    ReachStep(Step(s1, Edit([Row(changed, true)], ever)), PushConfig(Landed));
    var s2 := Step(Step(s1, Edit([Row(changed, true)], ever)), PushConfig(Landed));
    ReachStep(s2, Edit([Row(a, true)], ever));
    ReachStep(Step(s2, Edit([Row(a, true)], ever)), Deliver);
    ReachStep(Step(Step(s2, Edit([Row(a, true)], ever)), Deliver), Deliver);
  }

  /** An empty list on a fresh session has the fingerprint the session starts with: it is not pushed, old targets stay. */
  lemma EmptyListNotPushed(s: System, outcome: Outcome)
    ensures Specs(s.rows) == [] <==> Step(Step(s, Connect), PushConfig(outcome)).session == Some(NewSession)
                                     && FingerprintOf(Specs(s.rows)) == NewSession.pushed
    ensures Specs(s.rows) == [] ==> Step(Step(s, Connect), PushConfig(outcome)).targets == s.targets
  {
    EmptyFingerprint(Specs(s.rows));
  }

  /** A machine with one tunnel goes away, the tunnel is disabled, the machine comes back. */
  ghost function ForgottenRun(a: Spec): System {
    var ever := map[a.id := Fixed(a)];
    var s1 := Step(Step(Step(Step(Boot, Connect), Edit([Row(a, true)], ever)), PushConfig(Sent)), Deliver);
    Step(Step(Step(s1, Disconnect), Edit([Row(a, false)], ever)), Connect)
  }

  lemma ForgottenStart(a: Spec, s1: System)
    requires |a.id.text| == UUID_LENGTH
    requires var ever := map[a.id := Fixed(a)];
             s1 == Step(Step(Step(Step(Boot, Connect), Edit([Row(a, true)], ever)), PushConfig(Sent)), Deliver)
    ensures s1.targets == map[a.id := a] && s1.ever == map[a.id := Fixed(a)]
  {
    var ever := map[a.id := Fixed(a)];
    EditAndPush(Step(Boot, Connect), a, ever, Sent);
    OneRow(a);
  }

  lemma ForgottenEnd(a: Spec, s1: System, s: System)
    requires |a.id.text| == UUID_LENGTH && s1.targets == map[a.id := a] && s1.ever == map[a.id := Fixed(a)]
    requires s == Step(Step(Step(s1, Disconnect), Edit([Row(a, false)], map[a.id := Fixed(a)])), Connect)
    ensures s.targets == map[a.id := a] && s.rows == [Row(a, false)] && s.session == Some(NewSession)
  {
    assert Rows([Row(a, false)], map[a.id := Fixed(a)]);
  }

  /** Nothing is pushed on the new session, whatever happens, and the machine keeps the disabled tunnel. */
  lemma DisabledTunnelStays(a: Spec, outcome: Outcome)
    requires |a.id.text| == UUID_LENGTH
    ensures Reachable(ForgottenRun(a)) && Drained(ForgottenRun(a)) && !Exact(ForgottenRun(a))
    ensures Step(ForgottenRun(a), PushConfig(outcome)) == ForgottenRun(a)
  {
    var ever := map[a.id := Fixed(a)];
    var s1 := Step(Step(Step(Step(Boot, Connect), Edit([Row(a, true)], ever)), PushConfig(Sent)), Deliver);
    ForgottenStart(a, s1);
    ForgottenEnd(a, s1, ForgottenRun(a));
    ForgottenReachable(a);
    ForgottenIsStale(a, ForgottenRun(a), outcome);
  }

  lemma ForgottenIsStale(a: Spec, s: System, outcome: Outcome)
    requires s.targets == map[a.id := a] && s.rows == [Row(a, false)] && s.session == Some(NewSession)
    ensures Drained(s) && !Exact(s) && Step(s, PushConfig(outcome)) == s
  {
    assert [Row(a, false)][..0] == [];
    assert Specs(s.rows) == [];
    assert a.id in s.targets && a.id !in MapOf([]);
  }

  lemma ForgottenReachable(a: Spec)
    ensures Reachable(ForgottenRun(a))
  {
    var ever := map[a.id := Fixed(a)];
    assert Run([]) == Boot;
    ReachStep(Boot, Connect);
    ReachStep(Step(Boot, Connect), Edit([Row(a, true)], ever));
    var s0 := Step(Step(Boot, Connect), Edit([Row(a, true)], ever));
    ReachStep(s0, PushConfig(Sent));
    ReachStep(Step(s0, PushConfig(Sent)), Deliver);
    var s1 := Step(Step(s0, PushConfig(Sent)), Deliver);
    ReachStep(s1, Disconnect);
    ReachStep(Step(s1, Disconnect), Edit([Row(a, false)], ever));
    ReachStep(Step(Step(s1, Disconnect), Edit([Row(a, false)], ever)), Connect);
  }
}
