/** String helpers standing for the Python built-ins the core relies on:
    `str.strip`, `str.lower`, `str.join`, and `str`/`int` on integers. */
module Strings {

  /** The ASCII whitespace characters that `str.strip` removes: the space
      and tab, line feed, vertical tab, form feed and carriage return. */
  predicate IsSpace(c: char) {
    c == ' ' || '\t' <= c <= '\r'
  }

  predicate AllSpace(s: string) {
    forall i :: 0 <= i < |s| ==> IsSpace(s[i])
  }

  /** Python truthiness of `s.strip()`: the string holds a non-blank character. */
  predicate HasText(s: string) {
    !AllSpace(s)
  }

  /** Number of leading whitespace characters of `s`. */
  function LeadingSpaces(s: string): (k: nat)
    ensures k <= |s|
  {
    if s == [] || !IsSpace(s[0]) then 0 else 1 + LeadingSpaces(s[1..])
  }

  /** The first `LeadingSpaces(s)` characters are whitespace and the next
      one is not. */
  lemma {:induction false} LeadingSpacesShape(s: string)
    ensures forall i :: 0 <= i < LeadingSpaces(s) ==> IsSpace(s[i])
    ensures LeadingSpaces(s) < |s| ==> !IsSpace(s[LeadingSpaces(s)])
  {
    if s != [] && IsSpace(s[0]) {
      LeadingSpacesShape(s[1..]);
    }
  }

  /** `s.strip()`: peels whitespace off either end until neither end is
      whitespace. */
  function Strip(s: string): (r: string)
    ensures |r| <= |s|
    decreases |s|
  {
    if s == [] then s
    else if IsSpace(s[0]) then Strip(s[1..])
    else if IsSpace(s[|s| - 1]) then Strip(s[..|s| - 1])
    else s
  }

  /** What `strip` removes: the leading and the trailing whitespace, and
      nothing else; what is left neither starts nor ends with whitespace,
      and it is empty exactly when `s` is all whitespace. */
  predicate StripFacts(s: string) {
    var r := Strip(s);
    var k := LeadingSpaces(s);
    k + |r| <= |s| && r == s[k..k + |r|] &&
    (forall i :: k + |r| <= i < |s| ==> IsSpace(s[i])) &&
    (r != [] ==> !IsSpace(r[0]) && !IsSpace(r[|r| - 1])) &&
    (r == [] <==> AllSpace(s))
  }

  lemma StripFront(s: string)
    requires s != [] && IsSpace(s[0]) && StripFacts(s[1..])
    ensures StripFacts(s)
  {
    var t := s[1..];
    var k := LeadingSpaces(t);
    var r := Strip(t);
    assert t[k..k + |r|] == s[1 + k..1 + k + |r|];
    assert forall i :: 1 <= i < |s| ==> s[i] == t[i - 1];
  }

  lemma StripBack(s: string)
    requires |s| >= 1 && !IsSpace(s[0]) && IsSpace(s[|s| - 1]) && StripFacts(s[..|s| - 1])
    ensures StripFacts(s)
  {
    var t := s[..|s| - 1];
    assert t[0] == s[0];
    var r := Strip(t);
    assert t[0..|r|] == s[0..|r|];
    assert forall i :: 0 <= i < |t| ==> s[i] == t[i];
  }

  lemma {:induction false} StripShape(s: string)
    ensures StripFacts(s)
    decreases |s|
  {
    if s == [] {
    } else if IsSpace(s[0]) {
      StripShape(s[1..]);
      StripFront(s);
    } else if IsSpace(s[|s| - 1]) {
      StripShape(s[..|s| - 1]);
      StripBack(s);
    } else {
      assert s[0..|s|] == s;
    }
  }

  /** The stripped string is the slice after the leading whitespace. */
  lemma StripIsSlice(s: string)
    ensures LeadingSpaces(s) + |Strip(s)| <= |s|
    ensures Strip(s) == s[LeadingSpaces(s)..LeadingSpaces(s) + |Strip(s)|]
  {
    StripShape(s);
  }

  /** Stripping twice is stripping once. */
  lemma StripIdempotent(s: string)
    ensures Strip(Strip(s)) == Strip(s)
  {
    StripShape(s);
  }

  function LowerChar(c: char): char {
    if 'A' <= c <= 'Z' then (c as int + 32) as char else c
  }

  /** `s.lower()` on ASCII letters. */
  function Lower(s: string): (r: string)
    ensures |r| == |s|
    ensures forall i :: 0 <= i < |s| ==> r[i] == LowerChar(s[i])
  {
    seq(|s|, i requires 0 <= i < |s| => LowerChar(s[i]))
  }

  /** `sep.join(parts)`. */
  function Join(parts: seq<string>, sep: string): string {
    if |parts| == 0 then []
    else if |parts| == 1 then parts[0]
    else parts[0] + sep + Join(parts[1..], sep)
  }

  /** Number of occurrences of `c` in `s`. */
  function Count(s: string, c: char): nat {
    if s == [] then 0 else Count(s[..|s| - 1], c) + (if s[|s| - 1] == c then 1 else 0)
  }

  lemma {:induction false} CountAppend(a: string, b: string, c: char)
    ensures Count(a + b, c) == Count(a, c) + Count(b, c)
    decreases |b|
  {
    if b == [] {
      assert a + b == a;
    } else {
      assert (a + b)[..|a + b| - 1] == a + b[..|b| - 1];
      CountAppend(a, b[..|b| - 1], c);
    }
  }

  /** The separator of a join occurs once between each pair of neighbours. */
  lemma {:induction false} JoinCount(parts: seq<string>, sep: char)
    requires forall i :: 0 <= i < |parts| ==> Count(parts[i], sep) == 0
    ensures Count(Join(parts, [sep]), sep) == if parts == [] then 0 else |parts| - 1
  {
    if |parts| > 1 {
      JoinCount(parts[1..], sep);
      CountAppend(parts[0] + [sep], Join(parts[1..], [sep]), sep);
      CountAppend(parts[0], [sep], sep);
      var one: string := [sep];
      assert one[..0] == [];
    }
  }

  function DigitChar(d: nat): char
    requires d < 10
  {
    "0123456789"[d]
  }

  function DigitValue(c: char): nat {
    if '0' <= c <= '9' then c as int - '0' as int else 0
  }

  predicate IsDigit(c: char) {
    '0' <= c <= '9'
  }

  /** `str(n)` for a non-negative integer: one or more decimal digits. */
  function NatToString(n: nat): (r: string)
    ensures |r| >= 1
    ensures forall k :: 0 <= k < |r| ==> IsDigit(r[k])
  {
    if n < 10 then [DigitChar(n)] else NatToString(n / 10) + [DigitChar(n % 10)]
  }

  /** `str(i)` for any integer. */
  function IntToString(i: int): string {
    if i < 0 then "-" + NatToString(-i) else NatToString(i)
  }

  /** `int(s)` for a string of decimal digits. */
  function ParseNat(s: string): nat {
    if s == [] then 0 else ParseNat(s[..|s| - 1]) * 10 + DigitValue(s[|s| - 1])
  }

  /** `int(str(n)) == n`, so a key written as `str(id)` names exactly one id. */
  lemma {:induction false} ParseNatToString(n: nat)
    ensures ParseNat(NatToString(n)) == n
  {
    if n >= 10 {
      var a := NatToString(n / 10);
      assert (a + [DigitChar(n % 10)])[..|a|] == a;
      ParseNatToString(n / 10);
    }
  }

  lemma NatToStringInjective(a: nat, b: nat)
    requires NatToString(a) == NatToString(b)
    ensures a == b
  {
    ParseNatToString(a);
    ParseNatToString(b);
  }
}
