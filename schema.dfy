/**
 The record rule `pessoaSchema` (src/index.ts:58-77) without the schema
 library: a person record is accepted when its name has at least three
 characters, its CPF passes `validarCpf`, and its optional CNPJ and RG, when
 present, pass `validarCnpj` and the RG pattern `rgRegex`.
 */
module PessoaSchema {
  import opened Digits
  import CpfCheck
  import CnpjCheck

  datatype Option<T> = None | Some(value: T)

  /** The fields `nome`, `cpf`, and the optional `cnpj` and `rg` of a record. */
  datatype Pessoa = Pessoa(nome: string, cpf: string, cnpj: Option<string>, rg: Option<string>)

  /**
   `rgRegex.test(rg)` for the anchored pattern of two digits, a dot, three
   digits, a dot, three digits, a dash and one digit; `\d` is '0'..'9' and
   `$` matches only at the very end of the input.
   */
  predicate MatchesRg(rg: string) {
    |rg| == 12 &&
    IsDigit(rg[0]) && IsDigit(rg[1]) && rg[2] == '.' &&
    IsDigit(rg[3]) && IsDigit(rg[4]) && IsDigit(rg[5]) && rg[6] == '.' &&
    IsDigit(rg[7]) && IsDigit(rg[8]) && IsDigit(rg[9]) && rg[10] == '-' &&
    IsDigit(rg[11])
  }

  /** Nine digits written in the RG layout `NN.NNN.NNN-N`. */
  function FormatRg(d: string): (r: string)
    requires AllDigits(d) && |d| == 9
    ensures MatchesRg(r)
    ensures DigitsOnly(r) == d
  {
    var r := d[..2] + "." + d[2..5] + "." + d[5..8] + "-" + d[8..];
    DigitsOnlySplitAt(d[..2] + "." + d[2..5] + "." + d[5..8], '-', d[8..]);
    DigitsOnlySplitAt(d[..2] + "." + d[2..5], '.', d[5..8]);
    DigitsOnlySplitAt(d[..2], '.', d[2..5]);
    DigitsOnlyOfDigits(d[..2]);
    DigitsOnlyOfDigits(d[2..5]);
    DigitsOnlyOfDigits(d[5..8]);
    DigitsOnlyOfDigits(d[8..]);
    assert d[..2] + d[2..5] + d[5..8] + d[8..] == d;
    r
  }

  /** A string matches the RG pattern exactly when it is some nine digits in the RG layout. */
  lemma MatchesRgIffFormatted(rg: string)
    ensures MatchesRg(rg) <==> (|DigitsOnly(rg)| == 9 && rg == FormatRg(DigitsOnly(rg)))
  {
    if MatchesRg(rg) {
      var d := rg[..2] + rg[3..6] + rg[7..10] + rg[11..];
      assert AllDigits(d);
      assert rg == FormatRg(d);
    }
  }

  /** `pessoaSchema.safeParse(dados).success`: every field rule holds; absent optional fields are not checked. */
  predicate Accepts(p: Pessoa) {
    |p.nome| >= 3 &&
    CpfCheck.IsValidCpf(p.cpf) &&
    (p.cnpj.None? || CnpjCheck.IsValidCnpj(p.cnpj.value)) &&
    (p.rg.None? || MatchesRg(p.rg.value))
  }

  /** Leaving out an optional field never turns an accepted record into a rejected one. */
  lemma OmittingOptionalFieldsKeepsAcceptance(p: Pessoa)
    requires Accepts(p)
    ensures Accepts(p.(cnpj := None)) && Accepts(p.(rg := None)) && Accepts(p.(cnpj := None, rg := None))
  {
  }

  /** The record's CPF and CNPJ may be given with or without punctuation: only their digits matter. */
  lemma PunctuationInDocumentsIrrelevant(p: Pessoa)
    ensures Accepts(p) == Accepts(p.(cpf := DigitsOnly(p.cpf),
                                     cnpj := if p.cnpj.Some? then Some(DigitsOnly(p.cnpj.value)) else None))
  {
    CpfCheck.PunctuationIrrelevant(p.cpf);
    if p.cnpj.Some? {
      CnpjCheck.PunctuationIrrelevant(p.cnpj.value);
    }
  }

  /**
   The record rule restated through the generators: the CPF's digits are nine
   digits and their two check digits, the CNPJ's likewise for twelve digits,
   and the RG is nine digits in the RG layout.
   */
  lemma AcceptsIffWellFormed(p: Pessoa)
    ensures Accepts(p) <==>
      |p.nome| >= 3 &&
      (var d := DigitsOnly(p.cpf); |d| == 11 && d == CpfCheck.CompleteCpf(d[..9])) &&
      (p.cnpj.None? ||
        var d := DigitsOnly(p.cnpj.value); |d| == 14 && d == CnpjCheck.CompleteCnpj(d[..12])) &&
      (p.rg.None? ||
        var d := DigitsOnly(p.rg.value); |d| == 9 && p.rg.value == FormatRg(d))
  {
    CpfCheck.ValidIffComplete(p.cpf);
    if p.cnpj.Some? {
      CnpjCheck.ValidIffComplete(p.cnpj.value);
    }
    if p.rg.Some? {
      MatchesRgIffFormatted(p.rg.value);
    }
  }
}
