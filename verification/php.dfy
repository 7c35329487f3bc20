/** The parts of the PHP runtime that the HTTP client and the token parser
    rely on. PHP strings are byte strings; they are modelled as `string` with
    one character per byte, so `strlen(s)` is `|s|`. */
module Php {

  datatype Option<+T> = None | Some(value: T)

  /** `strtoupper` on one byte: only the ASCII letters a-z change. */
  function UpperChar(c: char): char {
    if 'a' <= c <= 'z' then (c as int - 32) as char else c
  }

  /** `strtoupper`: upper-cases every byte, keeping the length. */
  function StrToUpper(s: string): (r: string)
    ensures |r| == |s|
    ensures forall i :: 0 <= i < |s| ==> r[i] == UpperChar(s[i])
  {
    if s == [] then [] else [UpperChar(s[0])] + StrToUpper(s[1..])
  }

  /** Upper-casing twice is upper-casing once. */
  lemma StrToUpperIdempotent(s: string)
    ensures StrToUpper(StrToUpper(s)) == StrToUpper(s)
  {
  }

  /** A method name is "GET" after `strtoupper` exactly when it spells
      g-e-t in any mixture of cases. */
  lemma StrToUpperIsGet(m: string)
    ensures StrToUpper(m) == "GET" <==>
      |m| == 3 && m[0] in "gG" && m[1] in "eE" && m[2] in "tT"
  {
    var u := StrToUpper(m);
    if |m| == 3 {
      assert u == "GET" <==> u[0] == 'G' && u[1] == 'E' && u[2] == 'T';
      UpperCharIs(m[0], 'g', 'G');
      UpperCharIs(m[1], 'e', 'E');
      UpperCharIs(m[2], 't', 'T');
    } else {
      assert |u| != |"GET"|;
    }
  }

  /** A byte upper-cases to a capital letter exactly when it is that letter
      in either case. */
  lemma UpperCharIs(c: char, lower: char, upper: char)
    requires 'a' <= lower <= 'z' && upper as int == lower as int - 32
    ensures UpperChar(c) == upper <==> c in [lower, upper]
  {
  }

  /** PHP `empty` on a string: the empty string and "0" are empty. */
  predicate EmptyString(s: string) {
    s == "" || s == "0"
  }

  /** PHP `empty` on a value that is null (None) or a string. */
  predicate EmptyOptString(v: Option<string>) {
    v.None? || EmptyString(v.value)
  }

  predicate IsDigit(c: char) {
    '0' <= c <= '9'
  }

  predicate AllDigits(s: string) {
    forall i :: 0 <= i < |s| ==> IsDigit(s[i])
  }

  function DigitChar(d: nat): (c: char)
    requires d < 10
    ensures IsDigit(c)
  {
    ('0' as int + d) as char
  }

  function DigitValue(c: char): (d: nat)
    requires IsDigit(c)
    ensures d < 10
  {
    c as int - '0' as int
  }

  /** The integer a string of decimal digits denotes, as PHP's `(int)` cast
      reads it. */
  function DecimalValue(s: string): nat
    requires AllDigits(s)
  {
    if s == [] then 0 else DecimalValue(s[..|s| - 1]) * 10 + DigitValue(s[|s| - 1])
  }

  /** A natural number as PHP writes it when it is concatenated to a string:
      decimal digits, no leading zero. */
  function NatToDecimal(n: nat): (r: string)
    ensures 1 <= |r| && AllDigits(r)
    ensures r[0] == '0' ==> n == 0
  {
    if n < 10 then [DigitChar(n)] else NatToDecimal(n / 10) + [DigitChar(n % 10)]
  }

  /** An integer written in decimal, with a leading '-' when negative. */
  function IntToDecimal(i: int): (r: string)
    ensures 1 <= |r|
    ensures r[0] == '-' <==> i < 0
  {
    if i < 0 then "-" + NatToDecimal(-i) else NatToDecimal(i)
  }

  /** Writing a number in decimal and reading it back gives the number. */
  lemma {:induction false} DecimalRoundTrip(n: nat)
    ensures DecimalValue(NatToDecimal(n)) == n
  {
    if n >= 10 {
      var s := NatToDecimal(n);
      assert s[..|s| - 1] == NatToDecimal(n / 10);
      DecimalRoundTrip(n / 10);
    }
  }

  /** Three decimal digits denote a number below 1000: the hundreds, tens
      and units they spell. */
  lemma ThreeDigitValue(s: string)
    requires |s| == 3 && AllDigits(s)
    ensures DecimalValue(s) == 100 * DigitValue(s[0]) + 10 * DigitValue(s[1]) + DigitValue(s[2])
    ensures DecimalValue(s) < 1000
  {
    assert s[..2][..1] == s[..1];
    assert s[..1][..0] == [];
    assert DecimalValue(s[..1]) < 10;
    assert DecimalValue(s[..2]) < 100;
  }

  /** `implode(sep, parts)`: the parts joined with `sep` between them. */
  function Implode(sep: string, parts: seq<string>): string {
    if |parts| == 0 then ""
    else if |parts| == 1 then parts[0]
    else parts[0] + sep + Implode(sep, parts[1..])
  }

  /** Splitting a string at every occurrence of `c` (PHP `explode` with a
      one-byte separator); there is always at least one piece. */
  function SplitOn(s: string, c: char): (r: seq<string>)
    ensures |r| >= 1
  {
    if |s| == 0 then [""]
    else
      var rest := SplitOn(s[1..], c);
      if s[0] == c then [""] + rest else [[s[0]] + rest[0]] + rest[1..]
  }

  lemma {:induction false} SplitOnFree(p: string, c: char)
    requires c !in p
    ensures SplitOn(p, c) == [p]
  {
    if |p| > 0 {
      SplitOnFree(p[1..], c);
      assert [p[0]] + p[1..] == p;
    }
  }

  lemma {:induction false} SplitOnConcat(p: string, c: char, t: string)
    requires c !in p
    ensures SplitOn(p + [c] + t, c) == [p] + SplitOn(t, c)
  {
    var s := p + [c] + t;
    if |p| == 0 {
      assert s[0] == c && s[1..] == t;
    } else {
      assert s[0] == p[0] && s[1..] == p[1..] + [c] + t;
      SplitOnConcat(p[1..], c, t);
      assert [p[0]] + p[1..] == p;
    }
  }

  /** Splitting a string joined with a separator that occurs in none of the
      parts gives the parts back. */
  lemma {:induction false} SplitImplode(parts: seq<string>, c: char)
    requires |parts| >= 1
    requires forall i :: 0 <= i < |parts| ==> c !in parts[i]
    ensures SplitOn(Implode([c], parts), c) == parts
  {
    if |parts| == 1 {
      SplitOnFree(parts[0], c);
    } else {
      SplitImplode(parts[1..], c);
      SplitOnConcat(parts[0], c, Implode([c], parts[1..]));
      assert [parts[0]] + parts[1..] == parts;
    }
  }
}
