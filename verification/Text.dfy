/** The string functions of the Go library that port specifications go through. */
module Text {
  import opened Wrappers
  import Trimming

  /** unicode.IsSpace. */
  predicate IsSpace(c: char) {
    var n := c as int;
    || n == 0x20 || 0x09 <= n <= 0x0D || n == 0x85 || n == 0xA0
    || n == 0x1680 || 0x2000 <= n <= 0x200A || n == 0x2028 || n == 0x2029 || n == 0x202F || n == 0x205F || n == 0x3000
  }

  /** In ASCII: tab, line feed, vertical tab, form feed, carriage return, space. */
  lemma AsciiSpaces(c: char)
    requires c as int < 128
    ensures IsSpace(c) <==> c == '\t' || c == '\n' || c == 11 as char || c == 12 as char || c == '\r' || c == ' '
  {}

  predicate AllSpace(s: string) {
    Trimming.All(IsSpace, s)
  }

  /** strings.TrimSpace. */
  function TrimSpace(s: string): string {
    Trimming.Trim(IsSpace, s)
  }

  lemma TrimPadding(before: string, s: string, after: string)
    requires AllSpace(before) && AllSpace(after) && s != "" && !IsSpace(s[0]) && !IsSpace(s[|s| - 1])
    ensures TrimSpace(before + s + after) == s
  {
    Trimming.TrimPadding(IsSpace, before, s, after);
  }

  /** Nothing is left of white space. */
  lemma TrimBlank(s: string)
    requires AllSpace(s)
    ensures TrimSpace(s) == ""
  {
    Trimming.TrimLeftPadding(IsSpace, s, "");
    assert s + "" == s;
  }

  /** strings.Cut at a separator: what is before and after its first occurrence. */
  function Cut(s: string, separator: char): (r: Option<(string, string)>)
    ensures r.None? <==> separator !in s
    ensures r.Some? ==> separator !in r.value.0 && s == r.value.0 + [separator] + r.value.1
  {
    if s == "" then None
    else if s[0] == separator then Some(("", s[1..]))
    else
      match Cut(s[1..], separator)
      case None => None
      case Some((before, after)) => Some(([s[0]] + before, after))
  }

  lemma {:induction false} CutAt(before: string, separator: char, after: string)
    requires separator !in before
    ensures Cut(before + [separator] + after, separator) == Some((before, after))
  {
    var s := before + [separator] + after;
    if before == "" {
      assert s[1..] == after;
    } else {
      assert s[1..] == before[1..] + [separator] + after;
      CutAt(before[1..], separator, after);
      assert [s[0]] + before[1..] == before;
    }
  }

  // ---- Decimal numbers ------------------------------------------------------------------------

  const MAX_INT64 := 0x7FFF_FFFF_FFFF_FFFF

  predicate IsDigit(c: char) {
    '0' <= c <= '9'
  }

  predicate AllDigits(s: string) {
    forall i :: 0 <= i < |s| ==> IsDigit(s[i])
  }

  function Digit(c: char): (d: nat)
    requires IsDigit(c)
    ensures d < 10
  {
    c as int - '0' as int
  }

  function DigitChar(d: nat): (c: char)
    requires d < 10
    ensures IsDigit(c) && Digit(c) == d
  {
    ('0' as int + d) as char
  }

  function Value(s: string): nat
    requires AllDigits(s)
  {
    if s == "" then 0 else 10 * Value(s[..|s| - 1]) + Digit(s[|s| - 1])
  }

  /** fmt's %d of a nonnegative number. */
  function Decimal(n: nat): (s: string)
    ensures s != "" && AllDigits(s)
  {
    if n < 10 then [DigitChar(n)] else Decimal(n / 10) + [DigitChar(n % 10)]
  }

  lemma {:induction false} DecimalValue(n: nat)
    ensures Value(Decimal(n)) == n
  {
    if n < 10 {
      assert Decimal(n)[..0] == "";
      assert Value(Decimal(n)) == 10 * Value("") + n;
    } else {
      var s := Decimal(n);
      assert s[..|s| - 1] == Decimal(n / 10);
      DecimalValue(n / 10);
    }
  }

  /** strconv.Atoi: an optional sign, then digits, within 64 bits. */
  function Atoi(s: string): (r: Option<int>)
    ensures r.Some? ==> -MAX_INT64 - 1 <= r.value <= MAX_INT64
  {
    var digits := if s != "" && (s[0] == '-' || s[0] == '+') then s[1..] else s;
    if digits == "" || !AllDigits(digits) then None
    else
      var magnitude: int := Value(digits);
      var n := if s[0] == '-' then 0 - magnitude else magnitude;
      if n < -MAX_INT64 - 1 || n > MAX_INT64 then None else Some(n)
  }

  /** Printing and reading back. */
  lemma AtoiDecimal(n: nat)
    ensures Atoi(Decimal(n)) == if n <= MAX_INT64 then Some(n) else None
  {
    DecimalValue(n);
    assert IsDigit(Decimal(n)[0]);
  }
}
