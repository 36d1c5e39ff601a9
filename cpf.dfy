/**
 The CPF validator `validarCpf` (src/index.ts:9-24): strip everything that is
 not a digit, demand exactly 11 digits, and compare positions 9 and 10 with
 two modulo-11 check digits computed from the digits before them.
 */
module CpfCheck {
  import opened Digits

  /** The weights of a pass over `n` digits: n + 1, n, ..., 2. */
  function CpfWeights(n: nat): (w: seq<int>)
    ensures |w| == n
  {
    seq(n, j => n + 1 - j)
  }

  /** `resto = (soma * 10) % 11`, with 10 (and 11) read as 0. */
  function CpfCheckDigit(sum: int): (r: int)
    ensures 0 <= r <= 9
    ensures r == (sum * 10) % 11 % 10
  {
    var resto := (sum * 10) % 11;
    if resto == 10 || resto == 11 then 0 else resto
  }

  /** The check digit computed over digits 0..8 with weights 10..2. */
  function FirstCheckDigit(d: string): int
    requires AllDigits(d) && |d| >= 9
  {
    CpfCheckDigit(WeightedSum(d, CpfWeights(9), 9))
  }

  /** The check digit computed over digits 0..9 with weights 11..2. */
  function SecondCheckDigit(d: string): int
    requires AllDigits(d) && |d| >= 10
  {
    CpfCheckDigit(WeightedSum(d, CpfWeights(10), 10))
  }

  /** A digit string that passes: exactly 11 digits, positions 9 and 10 equal to the two check digits. */
  predicate ValidCpfDigits(d: string) {
    |d| == 11 && AllDigits(d) &&
    FirstCheckDigit(d) == DigitValue(d[9]) && SecondCheckDigit(d) == DigitValue(d[10])
  }

  /** What `validarCpf` accepts: a string whose digits, with everything else removed, pass. */
  predicate IsValidCpf(cpf: string) {
    ValidCpfDigits(DigitsOnly(cpf))
  }

  /** `validarCpf`: the two loops accumulate `soma` and the method returns as soon as one check digit differs. */
  method ValidarCpf(cpf: string) returns (ok: bool)
    ensures ok == IsValidCpf(cpf)
  {
    var limpo := DigitsOnly(cpf);
    if |limpo| != 11 {
      return false;
    }

    var soma := 0;
    for i := 1 to 10
      invariant soma == WeightedSum(limpo, CpfWeights(9), i - 1)
    {
      soma := soma + DigitValue(limpo[i - 1]) * (11 - i);
    }
    var resto := (soma * 10) % 11;
    if resto == 10 || resto == 11 {
      resto := 0;
    }
    if resto != DigitValue(limpo[9]) {
      return false;
    }

    soma := 0;
    for i := 1 to 11
      invariant soma == WeightedSum(limpo, CpfWeights(10), i - 1)
    {
      soma := soma + DigitValue(limpo[i - 1]) * (12 - i);
    }
    resto := (soma * 10) % 11;
    if resto == 10 || resto == 11 {
      resto := 0;
    }
    return resto == DigitValue(limpo[10]);
  }

  /**
   Both sums are never negative, so Dafny's `%` (Euclidean) and the
   truncating `%` of JavaScript give the same `resto`.
   */
  lemma SumsNonNegative(d: string)
    requires AllDigits(d) && |d| >= 10
    ensures WeightedSum(d, CpfWeights(9), 9) >= 0
    ensures WeightedSum(d, CpfWeights(10), 10) >= 0
  {
    WeightedSumNonNegative(d, CpfWeights(9), 9);
    WeightedSumNonNegative(d, CpfWeights(10), 10);
  }

  /** The 11-digit CPF whose first nine digits are `base`: the two check digits appended in order. */
  function CompleteCpf(base: string): (r: string)
    requires AllDigits(base) && |base| == 9
    ensures AllDigits(r) && |r| == 11 && r[..9] == base
  {
    var b := base + [DigitChar(FirstCheckDigit(base))];
    assert b[..9] == base;
    b + [DigitChar(SecondCheckDigit(b))]
  }

  /** Any string with fewer or more than 11 digits is rejected, whatever else it holds. */
  lemma WrongLengthRejected(cpf: string)
    requires |DigitsOnly(cpf)| != 11
    ensures !IsValidCpf(cpf)
  {
  }

  /** Only the digits matter: two strings with the same digits in the same order get the same answer. */
  lemma FormattingIrrelevant(s: string, t: string)
    requires DigitsOnly(s) == DigitsOnly(t)
    ensures IsValidCpf(s) == IsValidCpf(t)
  {
  }

  /** Punctuation may be removed or inserted freely: the answer for a string equals the answer for its digits. */
  lemma PunctuationIrrelevant(s: string)
    ensures IsValidCpf(s) == IsValidCpf(DigitsOnly(s))
  {
    DigitsOnlyIdempotent(s);
  }

  /** Inserting one non-digit character anywhere never changes the answer. */
  lemma NonDigitInsertionIrrelevant(a: string, c: char, b: string)
    requires !IsDigit(c)
    ensures IsValidCpf(a + [c] + b) == IsValidCpf(a + b)
  {
    DigitsOnlyIgnoresNonDigit(a, c, b);
  }

  /** Each check digit reads only the digits before its own position. */
  lemma CheckDigitsReadPrefix(d: string, e: string)
    requires AllDigits(d) && AllDigits(e) && |d| >= 10 && |e| >= 10
    ensures d[..9] == e[..9] ==> FirstCheckDigit(d) == FirstCheckDigit(e)
    ensures d[..10] == e[..10] ==> SecondCheckDigit(d) == SecondCheckDigit(e)
  {
    if d[..9] == e[..9] {
      WeightedSumPrefix(d, e, CpfWeights(9), 9);
    }
    if d[..10] == e[..10] {
      WeightedSumPrefix(d, e, CpfWeights(10), 10);
    }
  }

  /** Completing any nine digits yields a CPF the validator accepts. */
  lemma CompleteCpfAccepted(base: string)
    requires AllDigits(base) && |base| == 9
    ensures IsValidCpf(CompleteCpf(base))
  {
    var r := CompleteCpf(base);
    DigitsOnlyOfDigits(r);
    var b := base + [DigitChar(FirstCheckDigit(base))];
    assert r[..10] == b;
    assert r[..9] == b[..9] == base;
    WeightedSumPrefix(r, base, CpfWeights(9), 9);
    WeightedSumPrefix(r, b, CpfWeights(10), 10);
  }

  /** A string is accepted exactly when its digits are some nine digits followed by their two check digits. */
  lemma ValidIffComplete(cpf: string)
    ensures IsValidCpf(cpf) <==>
      (|DigitsOnly(cpf)| == 11 && DigitsOnly(cpf) == CompleteCpf(DigitsOnly(cpf)[..9]))
  {
    var d := DigitsOnly(cpf);
    if |d| == 11 {
      var base := d[..9];
      var c := CompleteCpf(base);
      var b := base + [DigitChar(FirstCheckDigit(base))];
      assert c[..10] == b;
      if IsValidCpf(cpf) {
        WeightedSumPrefix(d, base, CpfWeights(9), 9);
        DigitCharOfValue(d[9]);
        assert b == d[..10];
        WeightedSumPrefix(d, b, CpfWeights(10), 10);
        DigitCharOfValue(d[10]);
        assert forall i | 0 <= i < 11 :: c[i] == d[i] by {
          assert c[..9] == d[..9];
        }
      }
      if d == c {
        CompleteCpfAccepted(base);
        DigitsOnlyOfDigits(c);
      }
    }
  }

  /** Changing the first check digit of an accepted CPF to any other digit makes it rejected. */
  lemma FirstCheckDigitChangeDetected(d: string, c: char)
    requires AllDigits(d) && IsValidCpf(d) && IsDigit(c) && c != d[9]
    ensures !IsValidCpf(d[9 := c])
  {
    DigitsOnlyOfDigits(d);
    var e := d[9 := c];
    DigitsOnlyOfDigits(e);
    assert e[..9] == d[..9];
    CheckDigitsReadPrefix(d, e);
    DigitCharOfValue(c);
    DigitCharOfValue(d[9]);
  }

  /** Changing the second check digit of an accepted CPF to any other digit makes it rejected. */
  lemma SecondCheckDigitChangeDetected(d: string, c: char)
    requires AllDigits(d) && IsValidCpf(d) && IsDigit(c) && c != d[10]
    ensures !IsValidCpf(d[10 := c])
  {
    DigitsOnlyOfDigits(d);
    var e := d[10 := c];
    DigitsOnlyOfDigits(e);
    assert e[..9] == d[..9];
    assert e[..10] == d[..10];
    CheckDigitsReadPrefix(d, e);
    DigitCharOfValue(c);
    DigitCharOfValue(d[10]);
  }

  /** The weights top, top - 1, ..., top - k + 1 add up to k * (2 * top - k + 1) / 2. */
  lemma {:induction false} DescendingTotal(top: int, n: nat, k: nat)
    requires k <= n
    ensures 2 * WeightTotal(seq(n, j => top - j), k) == k * (2 * top - k + 1)
  {
    if k > 0 {
      DescendingTotal(top, n, k - 1);
    }
  }

  /** With all digits equal to v the two sums are 54 * v and 65 * v, and both check digits come out as v. */
  lemma RepeatedCheckDigits(v: int)
    requires 0 <= v <= 9
    ensures CpfCheckDigit(v * 54) == v && CpfCheckDigit(v * 65) == v
  {
    assert v * 54 * 10 == 11 * (49 * v) + v;
    assert v * 65 * 10 == 11 * (59 * v) + v;
  }

  /**
   The code has no rule against eleven equal digits: every such string is
   accepted.
   */
  lemma RepeatedDigitsAccepted(c: char)
    requires IsDigit(c)
    ensures IsValidCpf(seq(11, _ => c))
  {
    var d := seq(11, _ => c);
    DigitsOnlyOfDigits(d);
    WeightedSumOfRepeated(c, 11, CpfWeights(9), 9);
    WeightedSumOfRepeated(c, 11, CpfWeights(10), 10);
    DescendingTotal(10, 9, 9);
    assert CpfWeights(9) == seq(9, j => 10 - j);
    DescendingTotal(11, 10, 10);
    assert CpfWeights(10) == seq(10, j => 11 - j);
    RepeatedCheckDigits(DigitValue(c));
  }
}
