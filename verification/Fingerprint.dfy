/**
 The tunnel list a machine is sent and the fingerprint that decides whether it changed.
 The fingerprint is plain text with ':' and ';' in it and a host may contain both; what
 makes it sound is that ids have a fixed length and determine everything but the PROXY flag.
 */
module Fingerprint {
  import opened Wrappers
  import opened Store
  import Text

  /** protocol.TunnelSpec. */
  datatype Spec = Spec(id: Id, name: string, localHost: string, localPort: int, publicPort: int,
                       protocol: string, proxyProtocol: bool)

  const UUID_LENGTH := 36

  function Number(n: int): string {
    if n < 0 then "-" + Text.Decimal(-n) else Text.Decimal(n)
  }

  /** Printed numbers read back as themselves, with a sign exactly if they are negative. */
  lemma NumberReads(n: int)
    requires -Text.MAX_INT64 - 1 <= n <= Text.MAX_INT64
    ensures Text.Atoi(Number(n)) == Some(n)
    ensures Number(n)[0] == '-' <==> n < 0
  {
    if n < 0 {
      Text.DecimalValue(-n);
      assert Number(n)[1..] == Text.Decimal(-n);
    } else {
      Text.AtoiDecimal(n);
      assert Text.IsDigit(Text.Decimal(n)[0]);
    }
  }

  function Flag(b: bool): string {
    if b then "true" else "false"
  }

  function Head(t: Spec): string {
    t.id.text + ":" + t.localHost + ":" + Number(t.localPort) + ":" + t.protocol + ":"
  }

  function Entry(t: Spec): string {
    Head(t) + (Flag(t.proxyProtocol) + ";")
  }

  function FingerprintOf(specs: seq<Spec>): string {
    if specs == [] then "" else FingerprintOf(specs[..|specs| - 1]) + Entry(specs[|specs| - 1])
  }

  /** Everything about a tunnel that no statement ever updates. */
  function Fixed(t: Spec): Spec {
    t.(proxyProtocol := false)
  }

  /** A list of tunnels as they can be in some state of a history that knows these ids. */
  ghost predicate FromHistory(specs: seq<Spec>, ever: map<Id, Spec>) {
    && (forall k :: 0 <= k < |specs| ==>
          && |specs[k].id.text| == UUID_LENGTH
          && specs[k].id in ever && ever[specs[k].id] == Fixed(specs[k]))
    && (forall i, j :: 0 <= i < j < |specs| ==> specs[i].id != specs[j].id)
  }

  // ---- Reading a fingerprint from the left --------------------------------------------------------

  lemma {:induction false} FromTheLeft(specs: seq<Spec>)
    requires specs != []
    ensures FingerprintOf(specs) == Entry(specs[0]) + FingerprintOf(specs[1..])
  {
    var last := specs[|specs| - 1];
    if |specs| == 1 {
      assert specs[..0] == [] && specs[1..] == [];
      assert FingerprintOf(specs) == "" + Entry(last);
    } else {
      var front := specs[..|specs| - 1];
      FromTheLeft(front);
      assert front[1..] == specs[1..][..|specs| - 2];
      assert FingerprintOf(specs[1..]) == FingerprintOf(front[1..]) + Entry(last);
      Assoc(Entry(specs[0]), FingerprintOf(front[1..]), Entry(last));
    }
  }

  lemma Assoc(a: string, b: string, c: string)
    ensures (a + b) + c == a + (b + c)
  {}

  lemma SameSplit(a: string, x: string, b: string, y: string)
    requires a + x == b + y && |a| == |b|
    ensures a == b && x == y
  {
    assert a == (a + x)[..|a|] && b == (b + y)[..|b|];
    assert x == (a + x)[|a|..] && y == (b + y)[|b|..];
  }

  /** Two fingerprints that agree start with the same tunnel ... */
  lemma SameFirst(s: Spec, x: string, t: Spec, y: string)
    requires |s.id.text| == |t.id.text| == UUID_LENGTH
    requires s.id == t.id ==> Fixed(s) == Fixed(t)
    requires Entry(s) + x == Entry(t) + y
    ensures s == t && x == y
  {
    var restS := ":" + s.localHost + ":" + Number(s.localPort) + ":" + s.protocol + ":";
    var restT := ":" + t.localHost + ":" + Number(t.localPort) + ":" + t.protocol + ":";
    HeadStartsWithId(s, restS);
    HeadStartsWithId(t, restT);
    Assoc(s.id.text, restS, Flag(s.proxyProtocol) + ";");
    Assoc(t.id.text, restT, Flag(t.proxyProtocol) + ";");
    Assoc(s.id.text, restS + (Flag(s.proxyProtocol) + ";"), x);
    Assoc(t.id.text, restT + (Flag(t.proxyProtocol) + ";"), y);
    SameSplit(s.id.text, restS + (Flag(s.proxyProtocol) + ";") + x, t.id.text, restT + (Flag(t.proxyProtocol) + ";") + y);
    SameIdSameFirst(s, x, t, y);
  }

  lemma HeadStartsWithId(t: Spec, rest: string)
    requires rest == ":" + t.localHost + ":" + Number(t.localPort) + ":" + t.protocol + ":"
    ensures Head(t) == t.id.text + rest
  {}

  lemma SameIdSameFirst(s: Spec, x: string, t: Spec, y: string)
    requires s.id == t.id && Fixed(s) == Fixed(t) && Entry(s) + x == Entry(t) + y
    ensures s == t && x == y
  {
    assert Head(s) == Head(Fixed(s)) == Head(Fixed(t)) == Head(t);
    Assoc(Head(s), Flag(s.proxyProtocol) + ";", x);
    Assoc(Head(t), Flag(t.proxyProtocol) + ";", y);
    SameSplit(Head(s), Flag(s.proxyProtocol) + ";" + x, Head(t), Flag(t.proxyProtocol) + ";" + y);
    SameFlag(s.proxyProtocol, x, t.proxyProtocol, y);
  }

  lemma SameFlag(a: bool, x: string, b: bool, y: string)
    requires Flag(a) + ";" + x == Flag(b) + ";" + y
    ensures a == b && x == y
  {
    assert (Flag(a) + ";" + x)[0] == if a then 't' else 'f';
    assert (Flag(b) + ";" + y)[0] == if b then 't' else 'f';
    SameSplit(Flag(a) + ";", x, Flag(b) + ";", y);
  }

  /**
   Soundness: within one history, equal fingerprints mean equal lists, whatever characters
   hosts and protocols contain.
   */
  lemma {:induction false} Sound(a: seq<Spec>, b: seq<Spec>, ever: map<Id, Spec>)
    requires FromHistory(a, ever) && FromHistory(b, ever) && FingerprintOf(a) == FingerprintOf(b)
    ensures a == b
  {
    EmptyFingerprint(a);
    EmptyFingerprint(b);
    if a != [] && b != [] {
      StartInHistory(a, ever);
      StartInHistory(b, ever);
      SameStart(a, b);
      Sound(a[1..], b[1..], ever);
      StartAndRest(a, b);
    }
  }

  /** Only the empty list has the empty fingerprint. */
  lemma EmptyFingerprint(specs: seq<Spec>)
    ensures FingerprintOf(specs) == "" <==> specs == []
  {
    if specs != [] {
      assert |Entry(specs[|specs| - 1])| > 0;
    }
  }

  lemma StartAndRest(a: seq<Spec>, b: seq<Spec>)
    requires a != [] && b != [] && a[0] == b[0] && a[1..] == b[1..]
    ensures a == b
  {
    assert a == [a[0]] + a[1..] && b == [b[0]] + b[1..];
  }

  lemma SameStart(a: seq<Spec>, b: seq<Spec>)
    requires a != [] && b != [] && |a[0].id.text| == |b[0].id.text| == UUID_LENGTH
    requires a[0].id == b[0].id ==> Fixed(a[0]) == Fixed(b[0])
    requires FingerprintOf(a) == FingerprintOf(b)
    ensures a[0] == b[0] && FingerprintOf(a[1..]) == FingerprintOf(b[1..])
  {
    FromTheLeft(a);
    FromTheLeft(b);
    SameFirst(a[0], FingerprintOf(a[1..]), b[0], FingerprintOf(b[1..]));
  }

  lemma StartInHistory(specs: seq<Spec>, ever: map<Id, Spec>)
    requires FromHistory(specs, ever) && specs != []
    ensures FromHistory(specs[1..], ever)
    ensures |specs[0].id.text| == UUID_LENGTH && specs[0].id in ever && ever[specs[0].id] == Fixed(specs[0])
  {
    forall k | 0 <= k < |specs| - 1
      ensures specs[1..][k] == specs[k + 1]
    {}
  }

  /** An entry behind the id. */
  function Rest(t: Spec): string {
    ":" + t.localHost + ":" + Number(t.localPort) + ":" + t.protocol + ":" + (Flag(t.proxyProtocol) + ";")
  }

  /** Without the fixed length the text would be ambiguous: two tunnels look like one with a longer id. */
  lemma FixedLengthIsNeeded(t: Spec, x: string, y: string)
    ensures FingerprintOf([t.(id := Uuid(x)), t.(id := Uuid(y))]) == FingerprintOf([t.(id := Uuid(x + Rest(t) + y))])
  {
    var one, two, joined := t.(id := Uuid(x)), t.(id := Uuid(y)), t.(id := Uuid(x + Rest(t) + y));
    EntryOfId(t, x);
    EntryOfId(t, y);
    EntryOfId(t, x + Rest(t) + y);
    Single(joined);
    Single(one);
    assert [one, two][..1] == [one];
    Assoc(x + Rest(t), y, Rest(t));
  }

  lemma EntryOfId(t: Spec, x: string)
    ensures Entry(t.(id := Uuid(x))) == x + Rest(t)
  {}

  lemma Single(t: Spec)
    ensures FingerprintOf([t]) == Entry(t)
  {
    assert [t][..0] == [];
    assert "" + Entry(t) == Entry(t);
  }
}
