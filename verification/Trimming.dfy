/** strings.TrimSpace on any kind of sequence, for any notion of white space. */
module Trimming {
  predicate All<T>(isSpace: T -> bool, s: seq<T>) {
    forall i :: 0 <= i < |s| ==> isSpace(s[i])
  }

  function TrimLeft<T>(isSpace: T -> bool, s: seq<T>): (r: seq<T>)
    ensures r != [] ==> !isSpace(r[0])
  {
    if s != [] && isSpace(s[0]) then TrimLeft(isSpace, s[1..]) else s
  }

  function TrimRight<T>(isSpace: T -> bool, s: seq<T>): (r: seq<T>)
    ensures |r| <= |s| && r == s[..|r|]
    ensures r != [] ==> !isSpace(r[|r| - 1])
  {
    if s != [] && isSpace(s[|s| - 1]) then TrimRight(isSpace, s[..|s| - 1]) else s
  }

  function Trim<T>(isSpace: T -> bool, s: seq<T>): seq<T> {
    TrimRight(isSpace, TrimLeft(isSpace, s))
  }

  lemma {:induction false} TrimLeftPadding<T>(isSpace: T -> bool, pad: seq<T>, s: seq<T>)
    requires All(isSpace, pad) && (s == [] || !isSpace(s[0]))
    ensures TrimLeft(isSpace, pad + s) == s
  {
    if pad == [] {
      assert pad + s == s;
    } else {
      assert (pad + s)[1..] == pad[1..] + s;
      TrimLeftPadding(isSpace, pad[1..], s);
    }
  }

  lemma {:induction false} TrimRightPadding<T>(isSpace: T -> bool, s: seq<T>, pad: seq<T>)
    requires All(isSpace, pad) && (s == [] || !isSpace(s[|s| - 1]))
    ensures TrimRight(isSpace, s + pad) == s
  {
    if pad == [] {
      assert s + pad == s;
    } else {
      assert (s + pad)[..|s + pad| - 1] == s + pad[..|pad| - 1];
      TrimRightPadding(isSpace, s, pad[..|pad| - 1]);
    }
  }

  /** Padding is all that is taken off. */
  lemma TrimPadding<T>(isSpace: T -> bool, before: seq<T>, s: seq<T>, after: seq<T>)
    requires All(isSpace, before) && All(isSpace, after) && s != [] && !isSpace(s[0]) && !isSpace(s[|s| - 1])
    ensures Trim(isSpace, before + s + after) == s
  {
    assert before + s + after == before + (s + after);
    TrimLeftPadding(isSpace, before, s + after);
    TrimRightPadding(isSpace, s, after);
  }

  /** What is left is a part of what was there. */
  lemma {:induction false} TrimLeftIsSuffix<T>(isSpace: T -> bool, s: seq<T>)
    ensures |TrimLeft(isSpace, s)| <= |s| && TrimLeft(isSpace, s) == s[|s| - |TrimLeft(isSpace, s)|..]
  {
    if s != [] && isSpace(s[0]) {
      TrimLeftIsSuffix(isSpace, s[1..]);
    }
  }
}
