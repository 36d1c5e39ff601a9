/**
 Character-level building blocks shared by the CPF and CNPJ validators:
 the digit class `\d`, the projection `replace(/\D/g, "")` that keeps only
 digits, the value of one digit character, and the weighted digit sum that
 both check-digit schemes are built on.
 */
module Digits {

  /** The class `\d` of a JavaScript regular expression without the `u` flag. */
  predicate IsDigit(c: char) {
    '0' <= c <= '9'
  }

  predicate AllDigits(s: string) {
    forall i :: 0 <= i < |s| ==> IsDigit(s[i])
  }

  /** `s.replace(/\D/g, "")`: the digits of `s`, in order, with everything else removed. */
  function DigitsOnly(s: string): (r: string)
    ensures AllDigits(r)
    ensures |r| <= |s|
  {
    if s == [] then []
    else if IsDigit(s[0]) then [s[0]] + DigitsOnly(s[1..])
    else DigitsOnly(s[1..])
  }

  /** `parseInt` of a single digit character. */
  function DigitValue(c: char): (v: int)
    requires IsDigit(c)
    ensures 0 <= v <= 9
  {
    c as int - '0' as int
  }

  /** The digit character whose value is `v`. */
  function DigitChar(v: int): (c: char)
    requires 0 <= v <= 9
    ensures IsDigit(c) && DigitValue(c) == v
  {
    ('0' as int + v) as char
  }

  /** The sum of `DigitValue(d[j]) * w[j]` over the first `k` positions, accumulated left to right. */
  function WeightedSum(d: string, w: seq<int>, k: nat): int
    requires AllDigits(d) && k <= |d| && k <= |w|
  {
    if k == 0 then 0 else WeightedSum(d, w, k - 1) + DigitValue(d[k - 1]) * w[k - 1]
  }

  /** A string made of digits only is left as it is by the projection. */
  lemma {:induction false} DigitsOnlyOfDigits(s: string)
    requires AllDigits(s)
    ensures DigitsOnly(s) == s
  {
    if s != [] {
      DigitsOnlyOfDigits(s[1..]);
    }
  }

  /** A string without any digit strips to the empty string. */
  lemma {:induction false} DigitsOnlyOfNoDigits(s: string)
    requires forall i :: 0 <= i < |s| ==> !IsDigit(s[i])
    ensures DigitsOnly(s) == []
  {
    if s != [] {
      DigitsOnlyOfNoDigits(s[1..]);
    }
  }

  /** Stripping twice is stripping once. */
  lemma DigitsOnlyIdempotent(s: string)
    ensures DigitsOnly(DigitsOnly(s)) == DigitsOnly(s)
  {
    DigitsOnlyOfDigits(DigitsOnly(s));
  }

  /** The projection distributes over concatenation. */
  lemma {:induction false} DigitsOnlyAppend(a: string, b: string)
    ensures DigitsOnly(a + b) == DigitsOnly(a) + DigitsOnly(b)
  {
    if a == [] {
      assert a + b == b;
    } else {
      assert (a + b)[1..] == a[1..] + b;
      DigitsOnlyAppend(a[1..], b);
    }
  }

  /** Inserting one non-digit character anywhere leaves the projection unchanged. */
  lemma DigitsOnlyIgnoresNonDigit(a: string, c: char, b: string)
    requires !IsDigit(c)
    ensures DigitsOnly(a + [c] + b) == DigitsOnly(a + b)
  {
    DigitsOnlyAppend(a + [c], b);
    DigitsOnlyAppend(a, [c]);
    DigitsOnlyAppend(a, b);
  }

  /** A non-digit separator splits the projection into the projections of the two sides. */
  lemma DigitsOnlySplitAt(a: string, c: char, b: string)
    requires !IsDigit(c)
    ensures DigitsOnly(a + [c] + b) == DigitsOnly(a) + DigitsOnly(b)
  {
    DigitsOnlyIgnoresNonDigit(a, c, b);
    DigitsOnlyAppend(a, b);
  }

  /** With non-negative weights the weighted sum is non-negative. */
  lemma {:induction false} WeightedSumNonNegative(d: string, w: seq<int>, k: nat)
    requires AllDigits(d) && k <= |d| && k <= |w|
    requires forall j :: 0 <= j < k ==> w[j] >= 0
    ensures WeightedSum(d, w, k) >= 0
  {
    if k > 0 {
      WeightedSumNonNegative(d, w, k - 1);
    }
  }

  /** The weighted sum over the first `k` positions reads no digit at or after position `k`. */
  lemma {:induction false} WeightedSumPrefix(d: string, e: string, w: seq<int>, k: nat)
    requires AllDigits(d) && AllDigits(e) && k <= |d| && k <= |e| && k <= |w|
    requires d[..k] == e[..k]
    ensures WeightedSum(d, w, k) == WeightedSum(e, w, k)
  {
    if k > 0 {
      assert d[k - 1] == d[..k][k - 1] == e[..k][k - 1] == e[k - 1];
      assert d[..k - 1] == d[..k][..k - 1] == e[..k][..k - 1] == e[..k - 1];
      WeightedSumPrefix(d, e, w, k - 1);
    }
  }

  /** A digit character is determined by its value. */
  lemma DigitCharOfValue(c: char)
    requires IsDigit(c)
    ensures DigitChar(DigitValue(c)) == c
  {
  }

  /** The sum of the first `k` weights of a pass. */
  function WeightTotal(w: seq<int>, k: nat): int
    requires k <= |w|
  {
    if k == 0 then 0 else WeightTotal(w, k - 1) + w[k - 1]
  }

  /** Weighting copies of one digit gives that digit's value times the total weight. */
  lemma {:induction false} WeightedSumOfRepeated(c: char, n: nat, w: seq<int>, k: nat)
    requires IsDigit(c) && k <= n && k <= |w|
    ensures AllDigits(seq(n, _ => c))
    ensures WeightedSum(seq(n, _ => c), w, k) == DigitValue(c) * WeightTotal(w, k)
  {
    if k > 0 {
      WeightedSumOfRepeated(c, n, w, k - 1);
    }
  }
}
