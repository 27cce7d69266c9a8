/**
 * Decimal text as the command strings use it: Python's str() of an integer,
 * the `-?\d+` groups of the command patterns, and int() of a whole string
 * or of a single character.  Only ASCII digits are modelled.
 */
module Text {
  import opened Wrappers

  predicate IsDigit(c: char)
  {
    '0' <= c <= '9'
  }

  function DigitValue(c: char): (v: nat)
    requires IsDigit(c)
    ensures v < 10
  {
    (c as int - '0' as int) as nat
  }

  function DigitChar(v: nat): (c: char)
    requires v < 10
    ensures IsDigit(c) && DigitValue(c) == v
  {
    (v + '0' as int) as char
  }

  predicate AllDigits(s: string)
  {
    forall i :: 0 <= i < |s| ==> IsDigit(s[i])
  }

  /** The decimal digits of n, most significant first, without leading zeros. */
  function Digits(n: nat): (s: string)
    ensures |s| >= 1 && AllDigits(s)
    decreases n
  {
    if n < 10 then [DigitChar(n)] else Digits(n / 10) + [DigitChar(n % 10)]
  }

  /** The value of a string of decimal digits. */
  function Number(s: string): (v: nat)
    requires AllDigits(s)
    decreases |s|
  {
    if s == [] then 0 else Number(s[..|s| - 1]) * 10 + DigitValue(s[|s| - 1])
  }

  /** str(n). */
  function Show(n: int): (s: string)
    ensures |s| >= 1 && (IsDigit(s[0]) || s[0] == '-')
    ensures n >= 0 ==> AllDigits(s)
  {
    if n < 0 then "-" + Digits(-n) else Digits(n)
  }

  lemma {:induction false} NumberOfDigits(n: nat)
    ensures Number(Digits(n)) == n
    decreases n
  {
    if n >= 10 {
      NumberOfDigits(n / 10);
      var s := Digits(n);
      assert s[..|s| - 1] == Digits(n / 10);
    }
  }

  /** How many digits s starts with. */
  function Span(s: string): (k: nat)
    ensures k <= |s| && AllDigits(s[..k])
    ensures k < |s| ==> !IsDigit(s[k])
    decreases |s|
  {
    if s == [] || !IsDigit(s[0]) then 0
    else
      var k := 1 + Span(s[1..]);
      assert s[..k] == [s[0]] + s[1..][..k - 1];
      k
  }

  /** A run of digits followed by a non-digit (or nothing) spans exactly that run. */
  lemma {:induction false} SpanOfDigits(ds: string, rest: string)
    requires AllDigits(ds)
    requires rest == [] || !IsDigit(rest[0])
    ensures Span(ds + rest) == |ds|
    decreases |ds|
  {
    if ds != [] {
      assert (ds + rest)[1..] == ds[1..] + rest;
      SpanOfDigits(ds[1..], rest);
    } else {
      assert ds + rest == rest;
    }
  }

  /** The regular expression `\d+` at the front of s: its value and what follows. */
  function Natural(s: string): (r: Option<(nat, string)>)
    ensures r.Some? <==> |s| > 0 && IsDigit(s[0])
    ensures r.Some? ==> |r.value.1| < |s| && s == s[..|s| - |r.value.1|] + r.value.1
  {
    var k := Span(s);
    if k == 0 then None else Some((Number(s[..k]), s[k..]))
  }

  /** The regular expression `-?\d+` at the front of s. */
  function Signed(s: string): (r: Option<(int, string)>)
    ensures r.Some? ==> |r.value.1| < |s|
  {
    if |s| > 0 && s[0] == '-' then
      match Natural(s[1..])
      case None => None
      case Some((v, rest)) => Some((-(v as int), rest))
    else
      match Natural(s)
      case None => None
      case Some((v, rest)) => Some((v as int, rest))
  }

  /** Reading back what str() wrote, up to the first non-digit, gives the number and the rest of the line. */
  lemma ShowThenSigned(n: int, rest: string)
    requires rest == [] || !IsDigit(rest[0])
    ensures Signed(Show(n) + rest) == Some((n, rest))
  {
    var m: nat := if n < 0 then -n else n;
    var ds := Digits(m);
    SpanOfDigits(ds, rest);
    NumberOfDigits(m);
    assert (ds + rest)[..|ds|] == ds;
    assert (ds + rest)[|ds|..] == rest;
    if n < 0 {
      assert Show(n) + rest == "-" + (ds + rest);
      assert ("-" + (ds + rest))[1..] == ds + rest;
    } else {
      assert (ds + rest)[0] == ds[0];
    }
  }

  /** int() of a whole string: an optional sign and at least one digit, nothing else. */
  function ParseInt(s: string): (r: Result<int>)
    ensures r.Ok? ==> |s| >= 1
  {
    var (neg, body) := if |s| > 0 && (s[0] == '-' || s[0] == '+') then (s[0] == '-', s[1..]) else (false, s);
    if body == [] || !AllDigits(body) then Crash("ValueError")
    else Ok(if neg then -(Number(body) as int) else Number(body))
  }

  /** int() reads back what str() writes. */
  lemma ParseShow(n: int)
    ensures ParseInt(Show(n)) == Ok(n)
  {
    var m: nat := if n < 0 then -n else n;
    NumberOfDigits(m);
    if n < 0 {
      assert Show(n)[1..] == Digits(m);
    }
  }

  /** int() of the single character c: its digit value, or ValueError. */
  function DigitAt(s: string, k: nat): (r: Result<nat>)
    ensures r.Ok? <==> k < |s| && IsDigit(s[k])
    ensures k >= |s| ==> r == Crash("IndexError")
    ensures r.Ok? ==> r.value < 10 && s[k] == DigitChar(r.value)
  {
    if k >= |s| then Crash("IndexError")
    else if !IsDigit(s[k]) then Crash("ValueError")
    else Ok(DigitValue(s[k]))
  }

  predicate StartsWith(s: string, p: string)
  {
    |p| <= |s| && s[..|p|] == p
  }

  /** p + r starts with p, and what follows p is r. */
  lemma PrefixThenRest(p: string, r: string)
    ensures StartsWith(p + r, p) && (p + r)[|p|..] == r
  {
    assert (p + r)[..|p|] == p;
  }

  /** One differing character within the prefix's length rules the prefix out. */
  lemma DiffersAt(s: string, p: string, k: nat)
    requires k < |p| && k < |s| && s[k] != p[k]
    ensures !StartsWith(s, p)
  {
    if |p| <= |s| {
      assert s[..|p|][k] == s[k];
    }
  }

  /** Python's `p in s` on strings: p occurs somewhere in s. */
  predicate Contains(s: string, p: string)
    decreases |s|
  {
    StartsWith(s, p) || (|s| > 0 && Contains(s[1..], p))
  }

  /** `any(k in s for k in keys)`. */
  predicate AnyIn(keys: seq<string>, s: string)
  {
    exists i :: 0 <= i < |keys| && Contains(s, keys[i])
  }
}
