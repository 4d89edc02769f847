/**
 * strconv.Atoi on a 64-bit platform: an optional '+' or '-', then one or more
 * decimal digits, with a value that fits in int64. strconv.FormatInt (base
 * 10) is its partner, used to state the round trip.
 */
module Strconv {
  import opened Wrappers

  const MinInt64: int := -0x8000_0000_0000_0000
  const MaxInt64: int := 0x7FFF_FFFF_FFFF_FFFF

  predicate InInt64(n: int)
  {
    MinInt64 <= n <= MaxInt64
  }

  predicate IsDigit(c: char)
  {
    '0' <= c <= '9'
  }

  predicate AllDigits(s: string)
  {
    forall i :: 0 <= i < |s| ==> IsDigit(s[i])
  }

  /** The value of a run of decimal digits, most significant first. */
  function DigitsValue(s: string): nat
    requires AllDigits(s)
  {
    if s == [] then 0
    else DigitsValue(s[..|s| - 1]) * 10 + (s[|s| - 1] as int - '0' as int)
  }

  /** strconv.Atoi: None stands for its syntax and range errors. */
  function Atoi(s: string): (r: Option<int>)
    ensures r.Some? ==> InInt64(r.value)
    ensures r.Some? ==> 0 < |s| && (IsDigit(s[0]) || s[0] == '+' || s[0] == '-')
  {
    if |s| == 0 then None
    else
      var digits := if s[0] == '-' || s[0] == '+' then s[1..] else s;
      if |digits| == 0 || !AllDigits(digits) then None
      else
        var n: int := if s[0] == '-' then -(DigitsValue(digits) as int) else DigitsValue(digits);
        if InInt64(n) then Some(n) else None
  }

  /** The decimal digits of `m`, without leading zeros. */
  function Digits(m: nat): (s: string)
    ensures |s| > 0 && AllDigits(s) && DigitsValue(s) == m
  {
    if m < 10 then [('0' as int + m) as char]
    else
      var front := Digits(m / 10);
      var s := front + [('0' as int + m % 10) as char];
      assert s[..|s| - 1] == front;
      s
  }

  /** strconv.FormatInt(n, 10). */
  function FormatInt(n: int): string
  {
    if n < 0 then "-" + Digits(-n) else Digits(n)
  }

  /** Round trip: Atoi reads back every int64 that FormatInt writes. */
  lemma AtoiFormatInt(n: int)
    requires InInt64(n)
    ensures Atoi(FormatInt(n)) == Some(n)
  {
    var s := FormatInt(n);
    if n < 0 {
      assert s[1..] == Digits(-n);
    } else {
      assert IsDigit(Digits(n)[0]);
    }
  }

  /** An explicit '+' is accepted in front of a non-negative number. */
  lemma AtoiExplicitPlus(n: int)
    requires 0 <= n <= MaxInt64
    ensures Atoi("+" + FormatInt(n)) == Some(n)
  {
    assert ("+" + FormatInt(n))[1..] == Digits(n);
  }

  /** A character that is neither a digit nor a sign anywhere in the input makes Atoi fail. */
  lemma AtoiRejectsNonNumeric(s: string, i: int)
    requires 0 <= i < |s| && !IsDigit(s[i]) && s[i] != '+' && s[i] != '-'
    ensures Atoi(s) == None
  {
    if |s| > 0 && (s[0] == '-' || s[0] == '+') {
      assert s[1..][i - 1] == s[i];
    }
  }

  /** `k` zero digits. */
  function Zeros(k: nat): (z: string)
    ensures |z| == k && AllDigits(z)
  {
    if k == 0 then "" else Zeros(k - 1) + "0"
  }

  /** Leading zeros do not change the value of a digit run. */
  lemma {:induction false} LeadingZerosKeepValue(k: nat, d: string)
    requires AllDigits(d)
    ensures AllDigits(Zeros(k) + d) && DigitsValue(Zeros(k) + d) == DigitsValue(d)
  {
    var z := Zeros(k) + d;
    assert AllDigits(z) by {
      forall i | 0 <= i < |z| ensures IsDigit(z[i]) {
        if i >= k { assert z[i] == d[i - k]; }
      }
    }
    if d == [] {
      assert z == Zeros(k);
      if k > 0 {
        assert z[..|z| - 1] == Zeros(k - 1) + [];
        LeadingZerosKeepValue(k - 1, []);
      }
    } else {
      assert z[..|z| - 1] == Zeros(k) + d[..|d| - 1];
      LeadingZerosKeepValue(k, d[..|d| - 1]);
    }
  }

  /** Appending a digit to a positive number's rendering renders ten times it plus that digit. */
  lemma DigitsAppend(v: nat, c: char, w: nat)
    requires v > 0 && IsDigit(c) && w == v * 10 + (c as int - '0' as int)
    ensures Digits(w) == Digits(v) + [c]
  {
    assert w >= 10 && w / 10 == v && w % 10 == c as int - '0' as int;
  }

  /** A zero value behind `k` zeros, then one more digit: that digit behind `k + 1` zeros. */
  lemma ZeroFrontAppend(k: nat, c: char)
    requires IsDigit(c)
    ensures Zeros(k) + Digits(0) + [c] == Zeros(k + 1) + Digits(c as int - '0' as int)
  {
    assert Digits(0) == "0";
  }

  /** The number of redundant leading zeros of a digit run. */
  function Padding(d: string): nat
    requires AllDigits(d)
  {
    if |d| <= 1 then 0
    else if DigitsValue(d[..|d| - 1]) == 0 then Padding(d[..|d| - 1]) + 1
    else Padding(d[..|d| - 1])
  }

  /** The step of DigitRunIsPaddedDigits when the digits before the last one are all zeros. */
  lemma PadStepZero(d: string, front: string, c: char, kf: nat)
    requires IsDigit(c) && d == front + [c] && front == Zeros(kf) + Digits(0)
    ensures d == Zeros(kf + 1) + Digits(c as int - '0' as int)
  {
    ZeroFrontAppend(kf, c);
  }

  /** The step of DigitRunIsPaddedDigits when the digits before the last one have a positive value. */
  lemma PadStepPositive(d: string, front: string, c: char, kf: nat, vf: nat, w: nat)
    requires IsDigit(c) && d == front + [c] && front == Zeros(kf) + Digits(vf)
    requires vf > 0 && w == vf * 10 + (c as int - '0' as int)
    ensures d == Zeros(kf) + Digits(w)
  {
    DigitsAppend(vf, c, w);
    assert d == Zeros(kf) + (Digits(vf) + [c]);
  }

  /** Every non-empty digit run is its canonical rendering behind its redundant leading zeros. */
  lemma {:induction false} DigitRunIsPaddedDigits(d: string)
    requires |d| > 0 && AllDigits(d)
    ensures d == Zeros(Padding(d)) + Digits(DigitsValue(d))
  {
    if |d| > 1 {
      var front, c := d[..|d| - 1], d[|d| - 1];
      assert d == front + [c];
      DigitRunIsPaddedDigits(front);
      if DigitsValue(front) == 0 {
        PadStepZero(d, front, c, Padding(front));
      } else {
        PadStepPositive(d, front, c, Padding(front), DigitsValue(front), DigitsValue(d));
      }
    }
  }

  /** `s` is the decimal rendering of `m` behind some leading zeros. */
  ghost predicate PaddedDigits(s: string, m: nat)
  {
    exists k: nat :: s == Zeros(k) + Digits(m)
  }

  lemma PaddedRun(d: string)
    requires |d| > 0 && AllDigits(d)
    ensures PaddedDigits(d, DigitsValue(d))
  {
    DigitRunIsPaddedDigits(d);
  }

  /**
   * The converse of the round trip: an accepted input is the decimal
   * rendering of its magnitude behind leading zeros, with an optional sign,
   * and the sign is '-' only for a value that is not positive.
   */
  lemma AtoiAccepts(s: string)
    requires Atoi(s).Some?
    ensures var n := Atoi(s).value;
      var m := if n < 0 then -n else n;
      PaddedDigits(s, m)
      || (s[0] == '+' && PaddedDigits(s[1..], m))
      || (s[0] == '-' && n <= 0 && PaddedDigits(s[1..], m))
  {
    if s[0] == '-' || s[0] == '+' {
      var d := s[1..];
      PaddedRun(d);
      assert Atoi(s).value == if s[0] == '-' then -(DigitsValue(d) as int) else DigitsValue(d);
    } else {
      PaddedRun(s);
      assert Atoi(s).value == DigitsValue(s);
    }
  }

  /** A non-empty digit run within range is read as its value ... */
  lemma AtoiDigitRun(d: string)
    requires |d| > 0 && AllDigits(d) && DigitsValue(d) <= MaxInt64
    ensures Atoi(d) == Some(DigitsValue(d))
  {
    assert IsDigit(d[0]);
    assert d[0] != '-' && d[0] != '+';
  }

  /** ... and so is the same run behind '+'. */
  lemma AtoiPlusDigitRun(d: string)
    requires |d| > 0 && AllDigits(d) && DigitsValue(d) <= MaxInt64
    ensures Atoi("+" + d) == Some(DigitsValue(d))
  {
    var p := "+" + d;
    assert p[0] == '+' && p[1..] == d;
  }

  /** Leading zeros, with or without '+', keep the value. */
  lemma AtoiLeadingZeros(k: nat, n: int)
    requires 0 <= n <= MaxInt64
    ensures Atoi(Zeros(k) + Digits(n)) == Some(n)
    ensures Atoi("+" + Zeros(k) + Digits(n)) == Some(n)
  {
    var z := Zeros(k) + Digits(n);
    LeadingZerosKeepValue(k, Digits(n));
    AtoiDigitRun(z);
    AtoiPlusDigitRun(z);
    assert "+" + Zeros(k) + Digits(n) == "+" + z;
  }

  /** Digits whose value leaves the int64 range are rejected, signed or not. */
  lemma AtoiRejectsOutOfRange(d: string)
    requires |d| > 0 && AllDigits(d)
    ensures DigitsValue(d) > MaxInt64 ==> Atoi(d) == None && Atoi("+" + d) == None
    ensures DigitsValue(d) > MaxInt64 + 1 ==> Atoi("-" + d) == None
  {
    assert IsDigit(d[0]);
    assert ("+" + d)[1..] == d && ("-" + d)[1..] == d;
  }

  /** A sign anywhere but first is rejected. */
  lemma AtoiRejectsInnerSign(s: string, i: int)
    requires 0 < i < |s| && (s[i] == '+' || s[i] == '-')
    ensures Atoi(s) == None
  {
    if s[0] == '-' || s[0] == '+' {
      assert s[1..][i - 1] == s[i];
    }
  }
}
