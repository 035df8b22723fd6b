/**
 Byte streams as the Go program reads and writes them: a network connection whose
 bytes arrive in pieces of the network's choosing, the buffered reader over a tee
 that peeks at a connection, and the reader that replays what was peeked.
 */
module Streams {
  import opened Wrappers

  type byte = b: nat | b < 256

  /** A parser's answer on a byte sequence: a value and what follows it, or a failure. */
  datatype Parse<+T> = Malformed | Parsed(value: T, rest: seq<byte>)

  /** Sequence bookkeeping for the reading loops. */
  lemma Regroup(got: seq<byte>, piece: seq<byte>, rest: seq<byte>)
    ensures (got + piece) + rest == got + (piece + rest)
  {}

  lemma SplitAt(got: seq<byte>, rest: seq<byte>)
    ensures got == (got + rest)[..|got|] && rest == (got + rest)[|got|..]
  {}

  /**
   The reading side of a connection. `incoming` is every byte that will ever arrive;
   each Read hands out a nonempty piece of arbitrary length, and once the bytes are
   used up every Read fails (end of file, reset, or deadline).
   */
  class Conn {
    const incoming: seq<byte>
    var pos: nat

    ghost predicate Valid()
      reads this
    {
      pos <= |incoming|
    }

    ghost function Remaining(): (s: seq<byte>)
      requires Valid()
      reads this
    {
      incoming[pos..]
    }

    constructor (incoming: seq<byte>)
      ensures Valid() && this.incoming == incoming && Remaining() == incoming
    {
      this.incoming := incoming;
      pos := 0;
    }

    /** One read of at most `max` bytes; the empty piece stands for the read error. */
    method Read(max: nat) returns (piece: seq<byte>)
      requires Valid() && 0 < max
      modifies this
      ensures Valid()
      ensures |piece| <= max
      ensures piece + Remaining() == old(Remaining())
      ensures piece == [] <==> old(Remaining()) == []
    {
      if pos == |incoming| {
        return [];
      }
      var n: nat :| 1 <= n <= max && n <= |incoming| - pos;
      piece := incoming[pos..pos + n];
      pos := pos + n;
    }

    /** io.ReadFull straight on the connection: `n` bytes or an error, nothing read beyond them. */
    method ReadFull(n: nat) returns (r: Option<seq<byte>>)
      requires Valid()
      modifies this
      ensures Valid()
      ensures |old(Remaining())| < n ==> r.None?
      ensures n <= |old(Remaining())| ==>
                r == Some(old(Remaining())[..n]) && Remaining() == old(Remaining())[n..]
    {
      var got: seq<byte> := [];
      while |got| < n
        invariant Valid() && |got| <= n
        invariant got + Remaining() == old(Remaining())
        decreases n - |got|
      {
        var piece := Read(n - |got|);
        if piece == [] {
          return None;
        }
        Regroup(got, piece, Remaining());
        got := got + piece;
      }
      SplitAt(got, Remaining());
      r := Some(got);
    }
  }

  /**
   bufio.Reader over io.TeeReader(conn, &raw): `raw` is everything physically read from
   the connection so far, `buf` the part of it that parsing has not consumed yet.
   */
  class BufReader {
    const conn: Conn
    var raw: seq<byte>
    var buf: seq<byte>
    ghost const whole: seq<byte>  // what the connection held when the reader was created

    const CAPACITY := 4096

    ghost predicate Valid()
      reads this, conn
    {
      && conn.Valid()
      && raw + conn.Remaining() == whole
    }

    ghost function Remaining(): (s: seq<byte>)
      requires Valid()
      reads this, conn
    {
      buf + conn.Remaining()
    }

    constructor (conn: Conn)
      requires conn.Valid()
      ensures Valid() && this.conn == conn
      ensures Remaining() == whole == conn.Remaining()
    {
      this.conn := conn;
      raw, buf := [], [];
      whole := conn.Remaining();
    }

    /** Refill an empty buffer with whatever one physical read delivers, copying it to `raw`. */
    method Fill() returns (ok: bool)
      requires Valid() && buf == []
      modifies this, conn
      ensures Valid() && Remaining() == old(Remaining())
      ensures ok <==> old(Remaining()) != []
      ensures ok ==> buf != []
    {
      var piece := conn.Read(CAPACITY);
      raw := raw + piece;
      buf := piece;
      ok := piece != [];
    }

    method ReadByte() returns (r: Option<byte>)
      requires Valid()
      modifies this, conn
      ensures Valid()
      ensures old(Remaining()) == [] ==> r.None?
      ensures old(Remaining()) != [] ==>
                r == Some(old(Remaining())[0]) && Remaining() == old(Remaining())[1..]
    {
      if buf == [] {
        var ok := Fill();
        if !ok {
          return None;
        }
      }
      r := Some(buf[0]);
      buf := buf[1..];
    }

    /** bufio.Reader.Read: hand out buffered bytes, after one physical read if there are none. */
    method Read(max: nat) returns (piece: seq<byte>)
      requires Valid() && 0 < max
      modifies this, conn
      ensures Valid()
      ensures |piece| <= max
      ensures piece + Remaining() == old(Remaining())
      ensures piece == [] <==> old(Remaining()) == []
    {
      if buf == [] {
        var ok := Fill();
        if !ok {
          return [];
        }
      }
      var n := if |buf| <= max then |buf| else max;
      piece, buf := buf[..n], buf[n..];
      Regroup(piece, buf, conn.Remaining());
    }

    /** io.ReadFull on the buffered reader. */
    method ReadFull(n: nat) returns (r: Option<seq<byte>>)
      requires Valid()
      modifies this, conn
      ensures Valid()
      ensures |old(Remaining())| < n ==> r.None?
      ensures n <= |old(Remaining())| ==>
                r == Some(old(Remaining())[..n]) && Remaining() == old(Remaining())[n..]
    {
      var got: seq<byte> := [];
      while |got| < n
        invariant Valid() && |got| <= n
        invariant got + Remaining() == old(Remaining())
        decreases n - |got|
      {
        var piece := Read(n - |got|);
        if piece == [] {
          return None;
        }
        Regroup(got, piece, Remaining());
        got := got + piece;
      }
      SplitAt(got, Remaining());
      r := Some(got);
    }
  }

  /**
   io.MultiReader(bytes.NewReader(prefix), conn), which is what prefixedConn reads from.
   With an empty prefix it is the plain connection.
   */
  class ReplayReader {
    const conn: Conn
    var prefix: seq<byte>

    ghost predicate Valid()
      reads this, conn
    {
      conn.Valid()
    }

    ghost function Remaining(): (s: seq<byte>)
      requires Valid()
      reads this, conn
    {
      prefix + conn.Remaining()
    }

    constructor (prefix: seq<byte>, conn: Conn)
      requires conn.Valid()
      ensures Valid() && this.conn == conn && this.prefix == prefix
      ensures Remaining() == prefix + conn.Remaining()
    {
      this.prefix := prefix;
      this.conn := conn;
    }

    /** Serve the peeked bytes first, then fall through to the connection. */
    method Read(max: nat) returns (piece: seq<byte>)
      requires Valid() && 0 < max
      modifies this, conn
      ensures Valid()
      ensures |piece| <= max
      ensures piece + Remaining() == old(Remaining())
      ensures piece == [] <==> old(Remaining()) == []
      ensures if old(prefix) != [] then piece + prefix == old(prefix) && conn.Remaining() == old(conn.Remaining())
              else prefix == [] && piece + conn.Remaining() == old(conn.Remaining())
    {
      if prefix != [] {
        var n := if |prefix| <= max then |prefix| else max;
        piece, prefix := prefix[..n], prefix[n..];
      } else {
        piece := conn.Read(max);
      }
    }
  }

  /**
   The writing side of a connection: `out` is every byte accepted so far. A write may
   accept only part of its argument and then reports an error.
   */
  class Writer {
    var out: seq<byte>
    const reliable: bool  // whether every write succeeds

    constructor (reliable: bool)
      ensures out == [] && this.reliable == reliable
    {
      out := [];
      this.reliable := reliable;
    }

    method Write(p: seq<byte>) returns (n: nat, ok: bool)
      modifies this
      ensures n <= |p| && out == old(out) + p[..n]
      ensures ok ==> n == |p|
      ensures reliable ==> ok
    {
      ok := *;
      ok := ok || reliable;
      if ok {
        n := |p|;
      } else {
        n :| 0 <= n <= |p|;
      }
      out := out + p[..n];
    }
  }
}
