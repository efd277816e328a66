/** Human-readable document numbers: a prefix followed by a zero-padded decimal
    counter (`GRN007`, `PO012`, `RPL-000042`), how they are printed and how the
    `/^PREFIX(\d+)$/` patterns read them back. */
module Numbering {
  import opened Common

  predicate IsDigit(c: char) { '0' <= c <= '9' }

  predicate AllDigits(s: string) { forall i :: 0 <= i < |s| ==> IsDigit(s[i]) }

  function DigitChar(d: nat): (c: char)
    requires d < 10
    ensures IsDigit(c) && c as int - '0' as int == d
  {
    (d + '0' as int) as char
  }

  /** Decimal text of `n` without leading zeros (`String(n)`). */
  function Decimal(n: nat): (s: string)
    ensures |s| >= 1 && AllDigits(s)
  {
    if n < 10 then [DigitChar(n)] else Decimal(n / 10) + [DigitChar(n % 10)]
  }

  /** The number a string of digits denotes (`parseInt(s, 10)`). */
  function ValueOf(s: string): nat
    requires AllDigits(s)
  {
    if s == [] then 0 else ValueOf(s[..|s| - 1]) * 10 + (s[|s| - 1] as int - '0' as int)
  }

  lemma {:induction false} DecimalValue(n: nat)
    ensures ValueOf(Decimal(n)) == n
  {
    if n >= 10 {
      DecimalValue(n / 10);
      var s := Decimal(n / 10) + [DigitChar(n % 10)];
      assert s[..|s| - 1] == Decimal(n / 10);
    }
  }

  function Zeros(k: nat): string
  {
    if k == 0 then "" else Zeros(k - 1) + "0"
  }

  lemma {:induction false} ZerosShape(k: nat)
    ensures |Zeros(k)| == k && AllDigits(Zeros(k)) && ValueOf(Zeros(k)) == 0
  {
    if k > 0 {
      ZerosShape(k - 1);
      assert Zeros(k)[..k - 1] == Zeros(k - 1);
    }
  }

  /** Leading zeros do not change the value `parseInt` reads. */
  lemma {:induction false} LeadingZerosValue(k: nat, s: string)
    requires AllDigits(s)
    ensures AllDigits(Zeros(k) + s) && ValueOf(Zeros(k) + s) == ValueOf(s)
  {
    ZerosShape(k);
    if s == [] {
      assert Zeros(k) + s == Zeros(k);
    } else {
      var t := Zeros(k) + s;
      assert AllDigits(t);
      assert t[..|t| - 1] == Zeros(k) + s[..|s| - 1];
      assert t[|t| - 1] == s[|s| - 1];
      LeadingZerosValue(k, s[..|s| - 1]);
    }
  }

  /** `s.padStart(width, '0')`. */
  function PadStart(s: string, width: nat): string
  {
    if |s| >= width then s else Zeros(width - |s|) + s
  }

  /** `String(n).padStart(width, '0')`. */
  function Padded(n: nat, width: nat): string
  {
    PadStart(Decimal(n), width)
  }

  /** A padded counter is all digits, at least `width` long, and reads back as `n`. */
  lemma PaddedValue(n: nat, width: nat)
    ensures AllDigits(Padded(n, width))
    ensures |Padded(n, width)| >= width && |Padded(n, width)| >= 1
    ensures ValueOf(Padded(n, width)) == n
  {
    DecimalValue(n);
    var d := Decimal(n);
    if |d| < width {
      ZerosShape(width - |d|);
      LeadingZerosValue(width - |d|, d);
    }
  }

  /** ASCII upper-casing, for the case-insensitive `/i` patterns. */
  function Upper(c: char): char
  {
    if 'a' <= c <= 'z' then (c as int - 32) as char else c
  }

  predicate SamePrefix(s: string, prefix: string, ignoreCase: bool)
  {
    && |s| >= |prefix|
    && if ignoreCase then forall i :: 0 <= i < |prefix| ==> Upper(s[i]) == Upper(prefix[i])
       else s[..|prefix|] == prefix
  }

  /** The counter in `s` when `s` is `prefix` followed by one or more digits and
      nothing else (`/^PREFIX(\d+)$/`, with `/i` when `ignoreCase`). */
  function ParseNumbered(prefix: string, ignoreCase: bool, s: string): Option<nat>
  {
    if SamePrefix(s, prefix, ignoreCase) && |s| > |prefix| && AllDigits(s[|prefix|..])
    then Some(ValueOf(s[|prefix|..]))
    else None
  }

  /** `${prefix}${String(n).padStart(width, '0')}`. */
  function Numbered(prefix: string, n: nat, width: nat): string
  {
    prefix + Padded(n, width)
  }

  /** Printing a number and reading it back gives the number. */
  lemma NumberedRoundTrip(prefix: string, ignoreCase: bool, n: nat, width: nat)
    ensures ParseNumbered(prefix, ignoreCase, Numbered(prefix, n, width)) == Some(n)
  {
    PaddedValue(n, width);
    var s := Numbered(prefix, n, width);
    assert s[..|prefix|] == prefix;
    assert s[|prefix|..] == Padded(n, width);
  }

  /** Distinct counters print as distinct numbers. */
  lemma NumberedInjective(prefix: string, a: nat, b: nat, width: nat)
    requires Numbered(prefix, a, width) == Numbered(prefix, b, width)
    ensures a == b
  {
    NumberedRoundTrip(prefix, false, a, width);
    NumberedRoundTrip(prefix, false, b, width);
  }

  /** The largest counter among the strings that match the pattern. */
  function MaxNumber(prefix: string, ignoreCase: bool, ss: seq<string>): (m: Option<nat>)
    ensures m.None? <==> forall i :: 0 <= i < |ss| ==> ParseNumbered(prefix, ignoreCase, ss[i]).None?
    ensures m.Some? ==> exists i :: 0 <= i < |ss| && ParseNumbered(prefix, ignoreCase, ss[i]) == m
    ensures m.Some? ==> forall i :: 0 <= i < |ss| && ParseNumbered(prefix, ignoreCase, ss[i]).Some? ==>
                          ParseNumbered(prefix, ignoreCase, ss[i]).value <= m.value
  {
    if ss == [] then None
    else
      var rest := MaxNumber(prefix, ignoreCase, ss[1..]);
      var here := ParseNumbered(prefix, ignoreCase, ss[0]);
      assert forall i :: 1 <= i < |ss| ==> ss[i] == ss[1..][i - 1];
      if here.None? then
        (if rest.Some? then
           var i :| 0 <= i < |ss[1..]| && ParseNumbered(prefix, ignoreCase, ss[1..][i]) == rest;
           assert ParseNumbered(prefix, ignoreCase, ss[i + 1]) == rest;
           rest
         else rest)
      else if rest.None? || rest.value <= here.value then here
      else
        var i :| 0 <= i < |ss[1..]| && ParseNumbered(prefix, ignoreCase, ss[1..][i]) == rest;
        assert ParseNumbered(prefix, ignoreCase, ss[i + 1]) == rest;
        rest
  }

  /** `Math.max(...numbers) + 1`, or 1 when no string matches: larger than every
      number in use, and exactly one more than the largest. */
  function NextNumber(prefix: string, ignoreCase: bool, ss: seq<string>): (n: nat)
    ensures n >= 1
    ensures forall i :: 0 <= i < |ss| && ParseNumbered(prefix, ignoreCase, ss[i]).Some? ==>
              ParseNumbered(prefix, ignoreCase, ss[i]).value < n
    ensures n == 1 || exists i :: 0 <= i < |ss| && ParseNumbered(prefix, ignoreCase, ss[i]) == Some(n - 1)
  {
    match MaxNumber(prefix, ignoreCase, ss)
    case None => 1
    case Some(m) => m + 1
  }

  /** The next number printed with the same prefix differs from every string given. */
  lemma NextNumberIsFresh(prefix: string, ignoreCase: bool, ss: seq<string>, width: nat)
    ensures forall i :: 0 <= i < |ss| ==> ss[i] != Numbered(prefix, NextNumber(prefix, ignoreCase, ss), width)
  {
    var n := NextNumber(prefix, ignoreCase, ss);
    NumberedRoundTrip(prefix, ignoreCase, n, width);
  }
}
