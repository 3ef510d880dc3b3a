/** JavaScript value and string semantics shared by every handler and scraper:
    optional values and their truthiness, `trim`, `includes`, `startsWith`,
    `toLowerCase` (ASCII letters only), first-occurrence `replace`,
    `split(c)[0]`, the `\s+` collapse and decimal rendering of numbers. */
module Js {

  /** A JavaScript value that may be `undefined` (or `null`). */
  datatype Option<+T> = None | Some(value: T) {
    function GetOr(default: T): T {
      match this
      case Some(v) => v
      case None => default
    }
  }

  /** `!!s` for a `string | undefined`: defined and non-empty. */
  predicate Truthy(s: Option<string>) {
    s.Some? && s.value != ""
  }

  /** `a || b` on two `string | undefined` values. */
  function Or(a: Option<string>, b: Option<string>): (r: Option<string>)
    ensures Truthy(a) ==> r == a
    ensures !Truthy(a) ==> r == b
  {
    if Truthy(a) then a else b
  }

  /** `s || d` for a string and a string fallback. */
  function OrElse(s: string, d: string): (r: string)
    ensures s != "" ==> r == s
    ensures s == "" ==> r == d
  {
    if s != "" then s else d
  }

  /** `o || d` for a `string | undefined` and a string fallback. */
  function OptOrElse(o: Option<string>, d: string): (r: string)
    ensures Truthy(o) ==> r == o.value
    ensures !Truthy(o) ==> r == d
  {
    if Truthy(o) then o.value else d
  }
}

module Text {
  import opened Js

  // ---------------------------------------------------------------
  // Whitespace and trimming
  // ---------------------------------------------------------------

  /** The characters JavaScript's `trim` and `\s` treat as white space
      (WhiteSpace and LineTerminator of ECMA-262). */
  predicate IsWs(c: char) {
    c == ' ' || c == '\t' || c == '\n' || c == '\r' || c == '\U{000B}' || c == '\U{000C}'
    || c == '\U{00A0}' || c == '\U{1680}' || ('\U{2000}' <= c <= '\U{200A}')
    || c == '\U{2028}' || c == '\U{2029}' || c == '\U{202F}' || c == '\U{205F}'
    || c == '\U{3000}' || c == '\U{FEFF}'
  }

  /** The characters at which `.` in a regular expression stops. */
  predicate IsLineTerminator(c: char) {
    c == '\n' || c == '\r' || c == '\U{2028}' || c == '\U{2029}'
  }

  function TrimStart(s: string): (r: string)
    ensures |r| <= |s| && r == s[|s| - |r|..]
    ensures r != [] ==> !IsWs(r[0])
    ensures s != [] && r == [] ==> IsWs(s[|s| - 1])
  {
    if |s| > 0 && IsWs(s[0]) then TrimStart(s[1..]) else s
  }

  function TrimEnd(s: string): (r: string)
    ensures |r| <= |s| && r == s[..|r|]
    ensures r != [] ==> !IsWs(r[|r| - 1])
  {
    if |s| > 0 && IsWs(s[|s| - 1]) then TrimEnd(s[..|s| - 1]) else s
  }

  /** `String.prototype.trim`. */
  function Trim(s: string): (r: string)
    ensures r != [] ==> !IsWs(r[0]) && !IsWs(r[|r| - 1])
    ensures |r| <= |s|
  {
    var t := TrimStart(s);
    var r := TrimEnd(t);
    assert r != [] ==> r[0] == t[0];
    r
  }

  /** A string with no white space at either end. */
  predicate IsTrimmed(s: string) {
    s != [] ==> !IsWs(s[0]) && !IsWs(s[|s| - 1])
  }

  lemma TrimOfTrimmed(s: string)
    requires IsTrimmed(s)
    ensures Trim(s) == s
  {
  }

  lemma TrimIdempotent(s: string)
    ensures Trim(Trim(s)) == Trim(s)
  {
    TrimOfTrimmed(Trim(s));
  }

  // ---------------------------------------------------------------
  // Prefixes, suffixes and substrings
  // ---------------------------------------------------------------

  predicate StartsWith(s: string, p: string) {
    |p| <= |s| && s[..|p|] == p
  }

  predicate EndsWith(s: string, p: string) {
    |p| <= |s| && s[|s| - |p|..] == p
  }

  /** `p` occurs in `s` starting at index `i`. */
  predicate OccursAt(s: string, p: string, i: int) {
    0 <= i && i + |p| <= |s| && s[i..i + |p|] == p
  }

  /** `String.prototype.includes`. */
  predicate Contains(s: string, p: string) {
    exists i | 0 <= i <= |s| - |p| :: OccursAt(s, p, i)
  }

  lemma ContainsWitness(s: string, p: string, i: int)
    requires OccursAt(s, p, i)
    ensures Contains(s, p)
  {
  }

  lemma StartsWithAppend(a: string, b: string)
    ensures StartsWith(a + b, a)
  {
    assert (a + b)[..|a|] == a;
  }

  lemma StartsWithConcat(a: string, b: string, c: string)
    ensures StartsWith(a + (b + c), a + b)
  {
    assert a + (b + c) == (a + b) + c;
    StartsWithAppend(a + b, c);
  }

  lemma ContainsPrefix(s: string, p: string)
    requires StartsWith(s, p)
    ensures Contains(s, p)
  {
    assert OccursAt(s, p, 0);
  }

  lemma ContainsInLeft(a: string, b: string, p: string)
    requires Contains(a, p)
    ensures Contains(a + b, p)
  {
    var i :| 0 <= i <= |a| - |p| && OccursAt(a, p, i);
    assert (a + b)[i..i + |p|] == a[i..i + |p|];
    assert OccursAt(a + b, p, i);
  }

  lemma ContainsInRight(a: string, b: string, p: string)
    requires Contains(b, p)
    ensures Contains(a + b, p)
  {
    var i :| 0 <= i <= |b| - |p| && OccursAt(b, p, i);
    assert (a + b)[|a| + i..|a| + i + |p|] == b[i..i + |p|];
    assert OccursAt(a + b, p, |a| + i);
  }

  /** Every character of a contained string occurs in the containing one. */
  lemma {:induction false} ContainsChar(s: string, p: string, c: char)
    requires Contains(s, p) && c in p
    ensures c in s
  {
    var i :| 0 <= i <= |s| - |p| && OccursAt(s, p, i);
    var j :| 0 <= j < |p| && p[j] == c;
    assert s[i + j] == s[i..i + |p|][j];
  }

  /** Index of the first occurrence of `p` in `s` at or after `from`. */
  function IndexFrom(s: string, p: string, from: nat): (r: Option<nat>)
    requires from <= |s|
    ensures r.Some? ==> from <= r.value && OccursAt(s, p, r.value)
    ensures r.Some? ==> forall j :: from <= j < r.value ==> !OccursAt(s, p, j)
    ensures r.None? ==> forall j :: from <= j ==> !OccursAt(s, p, j)
    decreases |s| - from
  {
    if OccursAt(s, p, from) then Some(from)
    else if from == |s| then None
    else IndexFrom(s, p, from + 1)
  }

  /** `String.prototype.indexOf`, with `None` for -1. */
  function IndexOf(s: string, p: string): (r: Option<nat>)
    ensures r.Some? <==> Contains(s, p)
    ensures r.Some? ==> OccursAt(s, p, r.value)
    ensures r.Some? ==> forall j :: 0 <= j < r.value ==> !OccursAt(s, p, j)
  {
    var r := IndexFrom(s, p, 0);
    assert r.Some? ==> OccursAt(s, p, r.value) && r.value <= |s| - |p|;
    r
  }

  /** `s.replace(p, r)` with a string pattern: only the first occurrence. */
  function ReplaceFirst(s: string, p: string, r: string): string {
    match IndexOf(s, p)
    case None => s
    case Some(i) => s[..i] + r + s[i + |p|..]
  }

  lemma ReplaceFirstAtStart(s: string, p: string, r: string)
    requires StartsWith(s, p)
    ensures ReplaceFirst(s, p, r) == r + s[|p|..]
  {
    assert OccursAt(s, p, 0);
    assert IndexFrom(s, p, 0) == Some(0);
  }

  /** `s.split(c)[0]`: everything before the first `c`. */
  function BeforeChar(s: string, c: char): (r: string)
    ensures StartsWith(s, r)
    ensures c !in r
    ensures |r| < |s| ==> s[|r|] == c
  {
    if s == [] then []
    else if s[0] == c then []
    else [s[0]] + BeforeChar(s[1..], c)
  }

  lemma {:induction false} BeforeCharConcat(a: string, b: string, c: char)
    requires c !in a
    ensures BeforeChar(a + [c] + b, c) == a
  {
    if a != [] {
      assert (a + [c] + b)[1..] == a[1..] + [c] + b;
      BeforeCharConcat(a[1..], b, c);
    }
  }

  lemma {:induction false} BeforeCharAbsent(s: string, c: char)
    requires c !in s
    ensures BeforeChar(s, c) == s
  {
    if s != [] {
      BeforeCharAbsent(s[1..], c);
    }
  }

  // ---------------------------------------------------------------
  // Case
  // ---------------------------------------------------------------

  function LowerChar(c: char): char {
    if 'A' <= c <= 'Z' then (c as int + 32) as char else c
  }

  /** `String.prototype.toLowerCase`, on ASCII letters. */
  function Lower(s: string): (r: string)
    ensures |r| == |s|
    ensures forall i :: 0 <= i < |s| ==> r[i] == LowerChar(s[i])
  {
    seq(|s|, i requires 0 <= i < |s| => LowerChar(s[i]))
  }

  lemma LowerIdempotent(s: string)
    ensures Lower(Lower(s)) == Lower(s)
  {
  }

  function UpperChar(c: char): char {
    if 'a' <= c <= 'z' then (c as int - 32) as char else c
  }

  /** `String.prototype.toUpperCase`, on ASCII letters. */
  function Upper(s: string): (r: string)
    ensures |r| == |s|
    ensures forall i :: 0 <= i < |s| ==> r[i] == UpperChar(s[i])
  {
    seq(|s|, i requires 0 <= i < |s| => UpperChar(s[i]))
  }

  /** A string that `Lower` leaves unchanged has no upper-case ASCII letter. */
  predicate IsLower(s: string) {
    Lower(s) == s
  }

  lemma LowerSlice(s: string, i: int, j: int)
    requires 0 <= i <= j <= |s|
    ensures Lower(s)[i..j] == Lower(s[i..j])
  {
  }

  /** Case-insensitive `includes`: `a.toLowerCase().includes(b.toLowerCase())`. */
  predicate ContainsCi(s: string, p: string) {
    Contains(Lower(s), Lower(p))
  }

  lemma ContainsCiOfLower(s: string, p: string)
    ensures ContainsCi(Lower(s), p) == ContainsCi(s, p)
  {
    LowerIdempotent(s);
  }

  // ---------------------------------------------------------------
  // White-space collapse: `s.replace(/\s+/g, ' ')`
  // ---------------------------------------------------------------

  /** `s.replace(/\s+/g, ' ')`: every maximal run of white space becomes one space. */
  function CollapseWs(s: string): (r: string)
    ensures |r| <= |s|
    ensures s != [] ==> r != [] && (IsWs(s[0]) <==> r[0] == ' ')
    ensures s != [] ==> (IsWs(s[|s| - 1]) <==> r[|r| - 1] == ' ')
    ensures forall i :: 0 <= i < |r| ==> (IsWs(r[i]) ==> r[i] == ' ')
    ensures forall i :: 0 <= i < |r| - 1 ==> !(IsWs(r[i]) && IsWs(r[i + 1]))
    decreases |s|
  {
    if s == [] then []
    else if IsWs(s[0]) then [' '] + CollapseWs(TrimStart(s))
    else
      var rest := CollapseWs(s[1..]);
      [s[0]] + rest
  }

  /** No run of two or more white-space characters. */
  predicate NoDoubleWs(s: string) {
    forall i :: 0 <= i < |s| - 1 ==> !(IsWs(s[i]) && IsWs(s[i + 1]))
  }

  lemma TrimStartKeepsNoDoubleWs(s: string)
    requires NoDoubleWs(s)
    ensures NoDoubleWs(TrimStart(s))
  {
  }

  lemma TrimEndKeepsNoDoubleWs(s: string)
    requires NoDoubleWs(s)
    ensures NoDoubleWs(TrimEnd(s))
  {
  }

  /** `s.replace(/\s+/g, ' ').trim()` has no white space at either end and no
      run of two white-space characters. */
  lemma CollapseThenTrim(s: string)
    ensures IsTrimmed(Trim(CollapseWs(s))) && NoDoubleWs(Trim(CollapseWs(s)))
  {
    var c := CollapseWs(s);
    TrimStartKeepsNoDoubleWs(c);
    TrimEndKeepsNoDoubleWs(TrimStart(c));
  }

  /** A string without white space is left as it is by the collapse. */
  lemma {:induction false} CollapseWithoutWs(s: string)
    requires forall i :: 0 <= i < |s| ==> !IsWs(s[i])
    ensures CollapseWs(s) == s
  {
    if s != [] {
      CollapseWithoutWs(s[1..]);
    }
  }

  // ---------------------------------------------------------------
  // Numbers
  // ---------------------------------------------------------------

  predicate IsDigit(c: char) {
    '0' <= c <= '9'
  }

  function DigitChar(d: nat): (c: char)
    requires d < 10
    ensures IsDigit(c)
  {
    ('0' as int + d) as char
  }

  function DigitValue(c: char): (d: nat)
    requires IsDigit(c)
    ensures d < 10 && DigitChar(d) == c
  {
    c as int - '0' as int
  }

  /** Decimal rendering of a natural number, as `${n}` gives it. */
  function NatToString(n: nat): (r: string)
    ensures r != [] && forall i :: 0 <= i < |r| ==> IsDigit(r[i])
    decreases n
  {
    if n < 10 then [DigitChar(n)] else NatToString(n / 10) + [DigitChar(n % 10)]
  }

  /** Decimal rendering of an integer, as `${n}` gives it. */
  function IntToString(n: int): string {
    if n < 0 then "-" + NatToString(-n) else NatToString(n)
  }

  /** The value of a string of decimal digits. */
  function ParseDigits(s: string): (n: nat)
    requires forall i :: 0 <= i < |s| ==> IsDigit(s[i])
    decreases |s|
  {
    if s == [] then 0 else 10 * ParseDigits(s[..|s| - 1]) + DigitValue(s[|s| - 1])
  }

  lemma {:induction false} ParseNatToString(n: nat)
    ensures ParseDigits(NatToString(n)) == n
    decreases n
  {
    if n >= 10 {
      var s := NatToString(n);
      assert s[..|s| - 1] == NatToString(n / 10);
      ParseNatToString(n / 10);
    }
  }

  /** `s.replace(/[^\d]/g, '')`: the ASCII digits of `s`, in order. */
  function DigitsOf(s: string): (r: string)
    ensures |r| <= |s|
    ensures forall i :: 0 <= i < |r| ==> IsDigit(r[i])
  {
    if s == [] then []
    else if IsDigit(s[0]) then [s[0]] + DigitsOf(s[1..])
    else DigitsOf(s[1..])
  }

  /** `s.slice(0, n)`. */
  function Prefix(s: string, n: nat): (r: string)
    ensures |r| <= n && StartsWith(s, r)
  {
    if |s| <= n then s else s[..n]
  }

  /** `parseInt(s.replace(/[^\d]/g, '')) || 0`. */
  function PriceValue(s: string): nat {
    ParseDigits(DigitsOf(s))
  }

  lemma MulSign(x: int, d: int)
    requires d > 0
    ensures x >= 1 ==> x * d >= d
    ensures x <= -1 ==> x * d <= -d
  {
    if x >= 1 {
      assert x * d == d + (x - 1) * d;
    } else if x <= -1 {
      assert x * d == -d + (x + 1) * d;
    }
  }

  /** Quotient and remainder are the only ones with `0 <= r < d`. */
  lemma DivUnique(a: int, d: int, q: int, r: int)
    requires d > 0 && 0 <= r < d && a == q * d + r
    ensures a / d == q && a % d == r
  {
    var q', r' := a / d, a % d;
    assert a == q' * d + r';
    assert (q - q') * d == r' - r;
    MulSign(q - q', d);
  }

  /** Adding `k` whole divisors adds `k` to the quotient and keeps the
      remainder. */
  lemma DivShift(a: int, k: int, d: int)
    requires d > 0
    ensures (a + k * d) / d == a / d + k && (a + k * d) % d == a % d
  {
    assert a + k * d == (a / d + k) * d + a % d;
    DivUnique(a + k * d, d, a / d + k, a % d);
  }

  /** `String(n).padStart(2, '0')` for a number below 100. */
  function Pad2(n: nat): (r: string)
    requires n < 100
    ensures |r| == 2 && IsDigit(r[0]) && IsDigit(r[1])
    ensures ParseDigits(r) == n
  {
    var r := [DigitChar(n / 10), DigitChar(n % 10)];
    assert r[..1] == [r[0]] && r[..1][..0] == [];
    assert DigitValue(r[0]) == n / 10 && DigitValue(r[1]) == n % 10;
    assert ParseDigits(r[..1]) == n / 10;
    r
  }

  // ---------------------------------------------------------------
  // Joining lines
  // ---------------------------------------------------------------

  /** `parts.join(sep)`. */
  function Join(parts: seq<string>, sep: string): string
    decreases |parts|
  {
    if parts == [] then ""
    else if |parts| == 1 then parts[0]
    else parts[0] + sep + Join(parts[1..], sep)
  }

  /** `parts.filter(Boolean)`: the non-empty strings, in order. */
  function NonEmpty(parts: seq<string>): (r: seq<string>)
    ensures |r| <= |parts|
    ensures forall i :: 0 <= i < |r| ==> r[i] != ""
    ensures forall x :: x in r <==> x in parts && x != ""
  {
    if parts == [] then []
    else if parts[0] == "" then NonEmpty(parts[1..])
    else [parts[0]] + NonEmpty(parts[1..])
  }
}
