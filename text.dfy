/** String helpers that stand for the Ruby core methods the query builder relies on:
    the `/\d+/` test, `Integer#to_s`, `Array#join`, `Array#inspect` and `String#end_with?`. */
module Text {

  /** Ruby's `\d` on a String: the ASCII decimal digits only. */
  predicate IsDigit(c: char) {
    '0' <= c <= '9'
  }

  /** `s.match(/\d+/)` is truthy exactly when `s` holds at least one digit. */
  predicate ContainsDigit(s: string) {
    exists i :: 0 <= i < |s| && IsDigit(s[i])
  }

  predicate AllDigits(s: string) {
    forall i :: 0 <= i < |s| ==> IsDigit(s[i])
  }

  function DigitChar(d: nat): (c: char)
    requires d < 10
    ensures IsDigit(c) && c as int - '0' as int == d
  {
    ('0' as int + d) as char
  }

  function DigitValue(c: char): (d: nat)
    requires IsDigit(c)
    ensures d < 10 && DigitChar(d) == c
  {
    c as int - '0' as int
  }

  /** `Integer#to_s` for a non-negative integer: its decimal digits, most significant first. */
  function NatToString(n: nat): (s: string)
    ensures |s| > 0 && AllDigits(s)
    ensures s[0] == '0' ==> n == 0
  {
    if n < 10 then [DigitChar(n)] else NatToString(n / 10) + [DigitChar(n % 10)]
  }

  /** `Integer#to_s`: a minus sign before the digits of a negative number. */
  function IntToString(i: int): (s: string)
    ensures |s| > 0
    ensures i < 0 <==> s[0] == '-'
    ensures ContainsDigit(s)
  {
    var digits := NatToString(if i < 0 then -i else i);
    assert IsDigit(digits[0]);
    var s := if i < 0 then "-" + digits else digits;
    assert IsDigit(s[|s| - 1]);
    s
  }

  /** The reading of a decimal digit string, the inverse of NatToString. */
  function ParseNat(s: string): nat
    requires AllDigits(s)
  {
    if s == [] then 0 else ParseNat(s[..|s| - 1]) * 10 + DigitValue(s[|s| - 1])
  }

  lemma {:induction false} ParseNatToString(n: nat)
    ensures ParseNat(NatToString(n)) == n
  {
    var s := NatToString(n);
    if n >= 10 {
      assert s[..|s| - 1] == NatToString(n / 10);
      ParseNatToString(n / 10);
    }
  }

  /** The rendering of any Integer reads back: its digits, after the sign of a negative number, are its magnitude,
      with no leading zero. */
  lemma IntToStringReads(i: int)
    ensures AllDigits(if i < 0 then IntToString(i)[1..] else IntToString(i))
    ensures ParseNat(if i < 0 then IntToString(i)[1..] else IntToString(i)) == if i < 0 then -i else i
    ensures var d := if i < 0 then IntToString(i)[1..] else IntToString(i); |d| > 0 && (d[0] == '0' ==> i == 0)
  {
    var n: nat := if i < 0 then -i else i;
    ParseNatToString(n);
    if i < 0 {
      assert IntToString(i)[1..] == NatToString(n);
    }
  }

  /** `parts.join(sep)`. */
  function Join(parts: seq<string>, sep: string): string
  {
    if |parts| == 0 then ""
    else if |parts| == 1 then parts[0]
    else parts[0] + sep + Join(parts[1..], sep)
  }

  lemma JoinThree(a: string, b: string, c: string, sep: string)
    ensures Join([a, b, c], sep) == a + sep + b + sep + c
  {
    assert [a, b, c][1..] == [b, c];
    assert [b, c][1..] == [c];
    assert Join([b, c], sep) == b + sep + c;
  }

  /** Splitting at every occurrence of `c`, keeping empty pieces: the reference inverse of Join. */
  function Split(s: string, c: char): (r: seq<string>)
    ensures |r| > 0
  {
    if s == [] then [""]
    else if s[0] == c then [""] + Split(s[1..], c)
    else var t := Split(s[1..], c); [[s[0]] + t[0]] + t[1..]
  }

  lemma {:induction false} SplitPiece(x: string, c: char, rest: string)
    requires c !in x
    ensures Split(x + [c] + rest, c) == [x] + Split(rest, c)
  {
    if x == [] {
      assert x + [c] + rest == [c] + rest;
      assert ([c] + rest)[1..] == rest;
    } else {
      assert (x + [c] + rest)[1..] == x[1..] + [c] + rest;
      SplitPiece(x[1..], c, rest);
      assert [x[0]] + x[1..] == x;
    }
  }

  lemma {:induction false} SplitWhole(x: string, c: char)
    requires c !in x
    ensures Split(x, c) == [x]
  {
    if x != [] {
      SplitWhole(x[1..], c);
      assert [x[0]] + x[1..] == x;
    }
  }

  /** Joining with a one-character separator that no part contains loses nothing. */
  lemma {:induction false} SplitJoin(parts: seq<string>, c: char)
    requires |parts| > 0
    requires forall i :: 0 <= i < |parts| ==> c !in parts[i]
    ensures Split(Join(parts, [c]), c) == parts
  {
    if |parts| == 1 {
      SplitWhole(parts[0], c);
    } else {
      SplitJoin(parts[1..], c);
      SplitPiece(parts[0], c, Join(parts[1..], [c]));
      assert [parts[0]] + parts[1..] == parts;
    }
  }

  /** `Array#inspect` on an Array of Strings, without Ruby's escaping of quotes and control characters. */
  function Inspect(items: seq<string>): string
  {
    "[" + Join(Quoted(items), ", ") + "]"
  }

  function Quoted(items: seq<string>): (r: seq<string>)
    ensures |r| == |items|
  {
    if items == [] then [] else ["\"" + items[0] + "\""] + Quoted(items[1..])
  }

  /** `s.end_with?(suffix)`. */
  predicate EndsWith(s: string, suffix: string) {
    |suffix| <= |s| && s[|s| - |suffix|..] == suffix
  }

  /** `key` occurs in `s` (the test behind `String#[]` with a String argument). */
  predicate Contains(s: string, key: string) {
    key <= s || (|s| > 0 && Contains(s[1..], key))
  }
}
