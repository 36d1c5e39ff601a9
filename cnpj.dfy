/**
 The CNPJ validator `validarCnpj` (src/index.ts:26-56): strip everything that
 is not a digit, demand exactly 14 digits, and compare positions 12 and 13
 with two modulo-11 check digits whose weights cycle through 9..2.
 */
module CnpjCheck {
  import opened Digits

  /** One step of the weight counter: `pos--`, then back to 9 when it falls below 2. */
  function NextWeight(pos: int): int {
    if pos - 1 < 2 then 9 else pos - 1
  }

  /** The weight applied to the digit at position `k` of a pass whose counter starts at `start`. */
  function WeightAt(start: int, k: nat): int {
    if k == 0 then start else NextWeight(WeightAt(start, k - 1))
  }

  /** The weights of a pass over `n` digits, the counter starting at `n - 7`. */
  function CnpjWeights(n: nat): (w: seq<int>)
    ensures |w| == n
  {
    seq(n, j requires 0 <= j => WeightAt(n - 7, j))
  }

  /** `resultado = soma % 11 < 2 ? 0 : 11 - soma % 11`, which is also `(soma * 10) % 11 % 10`. */
  function CnpjCheckDigit(sum: int): (r: int)
    ensures 0 <= r <= 9
    ensures r == (sum * 10) % 11 % 10
  {
    TimesTenModEleven(sum);
    if sum % 11 < 2 then 0 else 11 - sum % 11
  }

  /** Multiplying by ten before reducing modulo 11 is the same as multiplying the remainder by ten. */
  lemma TimesTenModEleven(sum: int)
    ensures (sum * 10) % 11 == (10 * (sum % 11)) % 11
  {
    var q, m := sum / 11, sum % 11;
    assert sum * 10 == 11 * (10 * q) + 10 * m;
  }

  /** The check digit computed over digits 0..11 with weights 5,4,3,2,9,8,7,6,5,4,3,2. */
  function FirstCheckDigit(d: string): int
    requires AllDigits(d) && |d| >= 12
  {
    CnpjCheckDigit(WeightedSum(d, CnpjWeights(12), 12))
  }

  /** The check digit computed over digits 0..12 with weights 6,5,4,3,2,9,8,7,6,5,4,3,2. */
  function SecondCheckDigit(d: string): int
    requires AllDigits(d) && |d| >= 13
  {
    CnpjCheckDigit(WeightedSum(d, CnpjWeights(13), 13))
  }

  /** A digit string that passes: exactly 14 digits, positions 12 and 13 equal to the two check digits. */
  predicate ValidCnpjDigits(d: string) {
    |d| == 14 && AllDigits(d) &&
    FirstCheckDigit(d) == DigitValue(d[12]) && SecondCheckDigit(d) == DigitValue(d[13])
  }

  /** What `validarCnpj` accepts: a string whose digits, with everything else removed, pass. */
  predicate IsValidCnpj(cnpj: string) {
    ValidCnpjDigits(DigitsOnly(cnpj))
  }

  /**
   `validarCnpj`: each pass walks the first `tamanho` digits with a weight
   counter `pos` that decrements and wraps to 9; the method returns as soon
   as the first check digit differs.
   */
  method ValidarCnpj(cnpj: string) returns (ok: bool)
    ensures ok == IsValidCnpj(cnpj)
  {
    var limpo := DigitsOnly(cnpj);
    if |limpo| != 14 {
      return false;
    }

    var tamanho := |limpo| - 2;
    var numeros := limpo[..tamanho];
    var digitos := limpo[tamanho..];
    var soma := 0;
    var pos := tamanho - 7;

    var i := tamanho;
    while i >= 1
      invariant 0 <= i <= tamanho
      invariant pos == WeightAt(tamanho - 7, tamanho - i)
      invariant soma == WeightedSum(numeros, CnpjWeights(tamanho), tamanho - i)
    {
      soma := soma + DigitValue(numeros[tamanho - i]) * pos;
      pos := pos - 1;
      if pos < 2 {
        pos := 9;
      }
      i := i - 1;
    }
    WeightedSumPrefix(numeros, limpo, CnpjWeights(12), 12);

    var resultado := if soma % 11 < 2 then 0 else 11 - soma % 11;
    if resultado != DigitValue(digitos[0]) {
      return false;
    }

    tamanho := tamanho + 1;
    numeros := limpo[..tamanho];
    soma := 0;
    pos := tamanho - 7;

    i := tamanho;
    while i >= 1
      invariant 0 <= i <= tamanho
      invariant pos == WeightAt(tamanho - 7, tamanho - i)
      invariant soma == WeightedSum(numeros, CnpjWeights(tamanho), tamanho - i)
    {
      soma := soma + DigitValue(numeros[tamanho - i]) * pos;
      pos := pos - 1;
      if pos < 2 {
        pos := 9;
      }
      i := i - 1;
    }
    WeightedSumPrefix(numeros, limpo, CnpjWeights(13), 13);

    resultado := if soma % 11 < 2 then 0 else 11 - soma % 11;
    return resultado == DigitValue(digitos[1]);
  }

  /** A counter started anywhere in 2..9 stays in 2..9. */
  lemma {:induction false} WeightInRange(start: int, k: nat)
    requires 2 <= start <= 9
    ensures 2 <= WeightAt(start, k) <= 9
  {
    if k > 0 {
      WeightInRange(start, k - 1);
    }
  }

  /** The counter cycles with period 8: its value at step `k` is `2 + (start - 2 - k) mod 8`. */
  lemma {:induction false} WeightClosedForm(start: int, k: nat)
    requires 2 <= start <= 9
    ensures WeightAt(start, k) == 2 + (start - 2 - k) % 8
  {
    if k > 0 {
      WeightClosedForm(start, k - 1);
    }
  }

  /** The two weight sequences the code produces, written out. */
  lemma WeightsWrittenOut()
    ensures CnpjWeights(12) == [5, 4, 3, 2, 9, 8, 7, 6, 5, 4, 3, 2]
    ensures CnpjWeights(13) == [6, 5, 4, 3, 2, 9, 8, 7, 6, 5, 4, 3, 2]
    ensures forall j :: 0 <= j < 13 ==> 2 <= CnpjWeights(13)[j] <= 9
  {
    forall j | 0 <= j < 12
      ensures CnpjWeights(12)[j] == 2 + (3 - j) % 8
    {
      WeightClosedForm(5, j);
    }
    forall j | 0 <= j < 13
      ensures CnpjWeights(13)[j] == 2 + (4 - j) % 8
    {
      WeightClosedForm(6, j);
    }
  }

  /**
   Both sums are never negative, so Dafny's `%` (Euclidean) and the
   truncating `%` of JavaScript give the same `resultado`.
   */
  lemma SumsNonNegative(d: string)
    requires AllDigits(d) && |d| >= 13
    ensures WeightedSum(d, CnpjWeights(12), 12) >= 0
    ensures WeightedSum(d, CnpjWeights(13), 13) >= 0
  {
    WeightsWrittenOut();
    WeightedSumNonNegative(d, CnpjWeights(12), 12);
    WeightedSumNonNegative(d, CnpjWeights(13), 13);
  }

  /** The 14-digit CNPJ whose first twelve digits are `base`: the two check digits appended in order. */
  function CompleteCnpj(base: string): (r: string)
    requires AllDigits(base) && |base| == 12
    ensures AllDigits(r) && |r| == 14 && r[..12] == base
  {
    var b := base + [DigitChar(FirstCheckDigit(base))];
    assert b[..12] == base;
    b + [DigitChar(SecondCheckDigit(b))]
  }

  /** Any string with fewer or more than 14 digits is rejected, whatever else it holds. */
  lemma WrongLengthRejected(cnpj: string)
    requires |DigitsOnly(cnpj)| != 14
    ensures !IsValidCnpj(cnpj)
  {
  }

  /** Punctuation may be removed or inserted freely: the answer for a string equals the answer for its digits. */
  lemma PunctuationIrrelevant(s: string)
    ensures IsValidCnpj(s) == IsValidCnpj(DigitsOnly(s))
  {
    DigitsOnlyIdempotent(s);
  }

  /** Inserting one non-digit character anywhere never changes the answer. */
  lemma NonDigitInsertionIrrelevant(a: string, c: char, b: string)
    requires !IsDigit(c)
    ensures IsValidCnpj(a + [c] + b) == IsValidCnpj(a + b)
  {
    DigitsOnlyIgnoresNonDigit(a, c, b);
  }

  /** Completing any twelve digits yields a CNPJ the validator accepts. */
  lemma CompleteCnpjAccepted(base: string)
    requires AllDigits(base) && |base| == 12
    ensures IsValidCnpj(CompleteCnpj(base))
  {
    var r := CompleteCnpj(base);
    DigitsOnlyOfDigits(r);
    var b := base + [DigitChar(FirstCheckDigit(base))];
    assert r[..13] == b;
    assert r[..12] == b[..12] == base;
    WeightedSumPrefix(r, base, CnpjWeights(12), 12);
    WeightedSumPrefix(r, b, CnpjWeights(13), 13);
  }

  /** A string is accepted exactly when its digits are some twelve digits followed by their two check digits. */
  lemma ValidIffComplete(cnpj: string)
    ensures IsValidCnpj(cnpj) <==>
      (|DigitsOnly(cnpj)| == 14 && DigitsOnly(cnpj) == CompleteCnpj(DigitsOnly(cnpj)[..12]))
  {
    var d := DigitsOnly(cnpj);
    if |d| == 14 {
      var base := d[..12];
      var c := CompleteCnpj(base);
      var b := base + [DigitChar(FirstCheckDigit(base))];
      assert c[..13] == b;
      if IsValidCnpj(cnpj) {
        WeightedSumPrefix(d, base, CnpjWeights(12), 12);
        DigitCharOfValue(d[12]);
        assert b == d[..13];
        WeightedSumPrefix(d, b, CnpjWeights(13), 13);
        DigitCharOfValue(d[13]);
        assert forall i | 0 <= i < 14 :: c[i] == d[i] by {
          assert c[..12] == d[..12];
        }
      }
      if d == c {
        CompleteCnpjAccepted(base);
        DigitsOnlyOfDigits(c);
      }
    }
  }

  /** Changing the first check digit of an accepted CNPJ to any other digit makes it rejected. */
  lemma FirstCheckDigitChangeDetected(d: string, c: char)
    requires AllDigits(d) && IsValidCnpj(d) && IsDigit(c) && c != d[12]
    ensures !IsValidCnpj(d[12 := c])
  {
    DigitsOnlyOfDigits(d);
    var e := d[12 := c];
    DigitsOnlyOfDigits(e);
    assert e[..12] == d[..12];
    WeightedSumPrefix(d, e, CnpjWeights(12), 12);
    DigitCharOfValue(c);
    DigitCharOfValue(d[12]);
  }

  /** Changing the second check digit of an accepted CNPJ to any other digit makes it rejected. */
  lemma SecondCheckDigitChangeDetected(d: string, c: char)
    requires AllDigits(d) && IsValidCnpj(d) && IsDigit(c) && c != d[13]
    ensures !IsValidCnpj(d[13 := c])
  {
    DigitsOnlyOfDigits(d);
    var e := d[13 := c];
    DigitsOnlyOfDigits(e);
    assert e[..12] == d[..12];
    assert e[..13] == d[..13];
    WeightedSumPrefix(d, e, CnpjWeights(12), 12);
    WeightedSumPrefix(d, e, CnpjWeights(13), 13);
    DigitCharOfValue(c);
    DigitCharOfValue(d[13]);
  }

  /** With all digits equal to v the first sum is 58 * v; its check digit equals v only for v = 0. */
  lemma RepeatedFirstCheckDigit(v: int)
    requires 0 <= v <= 9
    ensures CnpjCheckDigit(v * 58) == v <==> v == 0
  {
    assert v * 58 == 11 * (5 * v) + 3 * v;
    if v >= 4 {
      assert v * 58 == 11 * (5 * v + 1) + (3 * v - 11);
    }
    if v >= 8 {
      assert v * 58 == 11 * (5 * v + 2) + (3 * v - 22);
    }
  }

  /**
   The code has no rule against fourteen equal digits; the checksum itself
   rejects every such string except fourteen zeros.
   */
  lemma RepeatedDigitsRejectedUnlessZero(c: char)
    requires IsDigit(c)
    ensures IsValidCnpj(seq(14, _ => c)) <==> c == '0'
  {
    var d := seq(14, _ => c);
    DigitsOnlyOfDigits(d);
    WeightedSumOfRepeated(c, 14, CnpjWeights(12), 12);
    WeightedSumOfRepeated(c, 14, CnpjWeights(13), 13);
    WeightsWrittenOut();
    assert WeightTotal(CnpjWeights(12), 12) == 58;
    RepeatedFirstCheckDigit(DigitValue(c));
    if c == '0' {
      assert DigitValue(c) == 0;
    }
  }
}
