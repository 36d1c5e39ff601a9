/**
 The documents and records of the repository's test table (test/test.ts),
 evaluated against the model. Two records there are expected to fail because
 their CPF has eleven equal digits; the validator as written has no such rule
 and accepts them, and the lemmas below say so.
 */
module PessoaCases {
  import opened Digits
  import opened PessoaSchema
  import CpfCheck
  import CnpjCheck

  /** Eleven characters in the CPF layout `NNN.NNN.NNN-NN`. */
  function CpfLayout(d: string): string
    requires |d| == 11
  {
    d[..3] + "." + d[3..6] + "." + d[6..9] + "-" + d[9..]
  }

  /** Fourteen characters in the CNPJ layout `NN.NNN.NNN/NNNN-NN`. */
  function CnpjLayout(d: string): string
    requires |d| == 14
  {
    d[..2] + "." + d[2..5] + "." + d[5..8] + "/" + d[8..12] + "-" + d[12..]
  }

  /** The separators of the CPF layout are dropped by the projection. */
  lemma CpfLayoutDigits(d: string)
    requires |d| == 11
    ensures DigitsOnly(CpfLayout(d)) == DigitsOnly(d)
  {
    DigitsOnlySplitAt(d[..3] + "." + d[3..6] + "." + d[6..9], '-', d[9..]);
    DigitsOnlySplitAt(d[..3] + "." + d[3..6], '.', d[6..9]);
    DigitsOnlySplitAt(d[..3], '.', d[3..6]);
    DigitsOnlyAppend(d[..3], d[3..6]);
    DigitsOnlyAppend(d[..6], d[6..9]);
    DigitsOnlyAppend(d[..9], d[9..]);
    assert d[..3] + d[3..6] == d[..6];
    assert d[..6] + d[6..9] == d[..9];
    assert d[..9] + d[9..] == d;
  }

  /** The separators of the CNPJ layout are dropped by the projection. */
  lemma CnpjLayoutDigits(d: string)
    requires |d| == 14
    ensures DigitsOnly(CnpjLayout(d)) == DigitsOnly(d)
  {
    DigitsOnlySplitAt(d[..2] + "." + d[2..5] + "." + d[5..8] + "/" + d[8..12], '-', d[12..]);
    DigitsOnlySplitAt(d[..2] + "." + d[2..5] + "." + d[5..8], '/', d[8..12]);
    DigitsOnlySplitAt(d[..2] + "." + d[2..5], '.', d[5..8]);
    DigitsOnlySplitAt(d[..2], '.', d[2..5]);
    DigitsOnlyAppend(d[..2], d[2..5]);
    DigitsOnlyAppend(d[..5], d[5..8]);
    DigitsOnlyAppend(d[..8], d[8..12]);
    DigitsOnlyAppend(d[..12], d[12..]);
    assert d[..2] + d[2..5] == d[..5];
    assert d[..5] + d[5..8] == d[..8];
    assert d[..8] + d[8..12] == d[..12];
    assert d[..12] + d[12..] == d;
  }

  /** A run of digits, one non-digit, and another run of digits strip to the two runs. */
  lemma OneNonDigit(a: string, c: char, b: string)
    requires AllDigits(a) && AllDigits(b) && !IsDigit(c)
    ensures DigitsOnly(a + [c] + b) == a + b
  {
    DigitsOnlySplitAt(a, c, b);
    DigitsOnlyOfDigits(a);
    DigitsOnlyOfDigits(b);
  }

  /*
   The helper lemmas below take the fixture strings as parameters pinned by
   `requires s == "..."` instead of writing the literals in their bodies:
   the verifier then reasons about one variable per string rather than
   unfolding the recursive definitions on every literal occurrence, which
   keeps each proof small. The lemmas without parameters state the facts
   about the literals themselves.
   */

  lemma CpfFixtureLayout(s: string, d: string)
    requires s == "806.462.500-94" && d == "80646250094"
    ensures CpfLayout(d) == s
  {
  }

  lemma CpfFixtureDigits(s: string, d: string)
    requires s == "806.462.500-94" && d == "80646250094"
    ensures DigitsOnly(s) == d && DigitsOnly(d) == d
  {
    CpfFixtureLayout(s, d);
    CpfLayoutDigits(d);
    assert AllDigits(d);
    DigitsOnlyOfDigits(d);
  }

  /** Digits 0..8 weighted 10..2 add up to 222, and 2220 leaves 9 modulo 11. */
  lemma CpfFixtureFirstSum(d: string)
    requires d == "80646250094"
    ensures AllDigits(d) && CpfCheck.FirstCheckDigit(d) == 9
  {
    assert AllDigits(d);
    var w := CpfCheck.CpfWeights(9);
    assert w == [10, 9, 8, 7, 6, 5, 4, 3, 2];
    assert WeightedSum(d, w, 1) == 80;
    assert WeightedSum(d, w, 2) == 80;
    assert WeightedSum(d, w, 3) == 128;
    assert WeightedSum(d, w, 4) == 156;
    assert WeightedSum(d, w, 5) == 192;
    assert WeightedSum(d, w, 6) == 202;
    assert WeightedSum(d, w, 7) == 222;
    assert WeightedSum(d, w, 8) == 222;
    assert WeightedSum(d, w, 9) == 222;
  }

  /** Digits 0..9 weighted 11..2 add up to 271, and 2710 leaves 4 modulo 11. */
  lemma CpfFixtureSecondSum(d: string)
    requires d == "80646250094"
    ensures AllDigits(d) && CpfCheck.SecondCheckDigit(d) == 4
  {
    assert AllDigits(d);
    var w := CpfCheck.CpfWeights(10);
    assert w == [11, 10, 9, 8, 7, 6, 5, 4, 3, 2];
    assert WeightedSum(d, w, 1) == 88;
    assert WeightedSum(d, w, 2) == 88;
    assert WeightedSum(d, w, 3) == 142;
    assert WeightedSum(d, w, 4) == 174;
    assert WeightedSum(d, w, 5) == 216;
    assert WeightedSum(d, w, 6) == 228;
    assert WeightedSum(d, w, 7) == 253;
    assert WeightedSum(d, w, 8) == 253;
    assert WeightedSum(d, w, 9) == 253;
    assert WeightedSum(d, w, 10) == 271;
  }

  /** The valid CPF of the tests, with and without punctuation (test/test.ts:8, test/test.ts:85). */
  lemma ValidCpfFixture()
    ensures CpfCheck.IsValidCpf("806.462.500-94")
    ensures CpfCheck.IsValidCpf("80646250094")
  {
    CpfFixtureDigits("806.462.500-94", "80646250094");
    CpfFixtureFirstSum("80646250094");
    CpfFixtureSecondSum("80646250094");
  }

  lemma RepeatedCpfFixtureDigits(s: string, d: string)
    requires s == "111.111.111-11" && d == "11111111111"
    ensures DigitsOnly(s) == seq(11, _ => '1')
  {
    assert CpfLayout(d) == s;
    CpfLayoutDigits(d);
    assert AllDigits(d);
    DigitsOnlyOfDigits(d);
    assert d == seq(11, _ => '1');
  }

  /** Eleven ones pass the CPF checksum as written, although test/test.ts:18 expects a rejection. */
  lemma RepeatedCpfFixture()
    ensures CpfCheck.IsValidCpf("111.111.111-11")
  {
    RepeatedCpfFixtureDigits("111.111.111-11", "11111111111");
    CpfCheck.RepeatedDigitsAccepted('1');
  }

  lemma CpfWithLetterFixtureLayout(s: string, d: string)
    requires s == "806.462.A00-94" && d == "806462A0094"
    ensures CpfLayout(d) == s && d == "806462" + ['A'] + "0094"
  {
  }

  lemma CpfWithLetterFixtureDigits(s: string, d: string)
    requires s == "806.462.A00-94" && d == "806462A0094"
    ensures |DigitsOnly(s)| == 10
  {
    CpfWithLetterFixtureLayout(s, d);
    CpfLayoutDigits(d);
    OneNonDigit("806462", 'A', "0094");
  }

  /** A letter in place of a digit leaves ten digits (test/test.ts:95). */
  lemma CpfWithLetterFixture()
    ensures !CpfCheck.IsValidCpf("806.462.A00-94")
  {
    CpfWithLetterFixtureDigits("806.462.A00-94", "806462A0094");
  }

  lemma CnpjFixtureLayout(s: string, d: string)
    requires s == "09.172.999/0001-20" && d == "09172999000120"
    ensures CnpjLayout(d) == s
  {
    assert d[..2] == "09" && d[2..5] == "172" && d[5..8] == "999" && d[8..12] == "0001" && d[12..] == "20";
  }

  lemma CnpjFixtureDigits(s: string, d: string)
    requires s == "09.172.999/0001-20" && d == "09172999000120"
    ensures DigitsOnly(s) == d && DigitsOnly(d) == d
  {
    CnpjFixtureLayout(s, d);
    CnpjLayoutDigits(d);
    assert AllDigits(d);
    DigitsOnlyOfDigits(d);
  }

  lemma CnpjFixtureFirstTotal(d: string, w: seq<int>)
    requires d == "09172999000120" && w == [5, 4, 3, 2, 9, 8, 7, 6, 5, 4, 3, 2]
    ensures AllDigits(d) && WeightedSum(d, w, 12) == 262
  {
    assert AllDigits(d);
    assert WeightedSum(d, w, 1) == 0;
    assert WeightedSum(d, w, 2) == 36;
    assert WeightedSum(d, w, 3) == 39;
    assert WeightedSum(d, w, 4) == 53;
    assert WeightedSum(d, w, 5) == 71;
    assert WeightedSum(d, w, 6) == 143;
    assert WeightedSum(d, w, 7) == 206;
    assert WeightedSum(d, w, 8) == 260;
    assert WeightedSum(d, w, 9) == 260;
    assert WeightedSum(d, w, 10) == 260;
    assert WeightedSum(d, w, 11) == 260;
    assert WeightedSum(d, w, 12) == 262;
  }

  /** Digits 0..11 weighted 5,4,3,2,9,8,7,6,5,4,3,2 add up to 262, which leaves 9 modulo 11. */
  lemma CnpjFixtureFirstSum(d: string)
    requires d == "09172999000120"
    ensures AllDigits(d) && CnpjCheck.FirstCheckDigit(d) == 2
  {
    CnpjCheck.WeightsWrittenOut();
    CnpjFixtureFirstTotal(d, CnpjCheck.CnpjWeights(12));
  }

  lemma CnpjFixtureSecondTotal(d: string, w: seq<int>)
    requires d == "09172999000120" && w == [6, 5, 4, 3, 2, 9, 8, 7, 6, 5, 4, 3, 2]
    ensures AllDigits(d) && WeightedSum(d, w, 13) == 297
  {
    assert AllDigits(d);
    assert WeightedSum(d, w, 1) == 0;
    assert WeightedSum(d, w, 2) == 45;
    assert WeightedSum(d, w, 3) == 49;
    assert WeightedSum(d, w, 4) == 70;
    assert WeightedSum(d, w, 5) == 74;
    assert WeightedSum(d, w, 6) == 155;
    assert WeightedSum(d, w, 7) == 227;
    assert WeightedSum(d, w, 8) == 290;
    assert WeightedSum(d, w, 9) == 290;
    assert WeightedSum(d, w, 10) == 290;
    assert WeightedSum(d, w, 11) == 290;
    assert WeightedSum(d, w, 12) == 293;
    assert WeightedSum(d, w, 13) == 297;
  }

  /** Digits 0..12 weighted 6,5,4,3,2,9,8,7,6,5,4,3,2 add up to 297, which leaves 0 modulo 11. */
  lemma CnpjFixtureSecondSum(d: string)
    requires d == "09172999000120"
    ensures AllDigits(d) && CnpjCheck.SecondCheckDigit(d) == 0
  {
    CnpjCheck.WeightsWrittenOut();
    CnpjFixtureSecondTotal(d, CnpjCheck.CnpjWeights(13));
  }

  /** The valid CNPJ of the tests, with and without punctuation (test/test.ts:9, test/test.ts:86). */
  lemma ValidCnpjFixture()
    ensures CnpjCheck.IsValidCnpj("09.172.999/0001-20")
    ensures CnpjCheck.IsValidCnpj("09172999000120")
  {
    CnpjFixtureDigits("09.172.999/0001-20", "09172999000120");
    CnpjFixtureFirstSum("09172999000120");
    CnpjFixtureSecondSum("09172999000120");
  }

  /** Fourteen equal digits, laid out with punctuation, strip back to themselves. */
  lemma RepeatedCnpjLayoutDigits(c: char)
    requires IsDigit(c)
    ensures DigitsOnly(CnpjLayout(seq(14, _ => c))) == seq(14, _ => c)
  {
    var d := seq(14, _ => c);
    CnpjLayoutDigits(d);
    DigitsOnlyOfDigits(d);
  }

  lemma OnesCnpjLayout(s: string, d: string)
    requires s == "11.111.111/1111-11" && d == seq(14, _ => '1')
    ensures CnpjLayout(d) == s
  {
    assert d[..2] == "11" && d[2..5] == "111" && d[5..8] == "111" && d[8..12] == "1111" && d[12..] == "11";
  }

  lemma NinesCnpjLayout(s: string, d: string)
    requires s == "99.999.999/9999-99" && d == seq(14, _ => '9')
    ensures CnpjLayout(d) == s
  {
    assert d[..2] == "99" && d[2..5] == "999" && d[5..8] == "999" && d[8..12] == "9999" && d[12..] == "99";
  }

  /** A laid-out CNPJ of fourteen equal digits is rejected unless the digit is zero. */
  lemma RepeatedCnpjLayoutRejected(s: string, c: char)
    requires IsDigit(c) && c != '0' && s == CnpjLayout(seq(14, _ => c))
    ensures !CnpjCheck.IsValidCnpj(s)
  {
    var d := seq(14, _ => c);
    RepeatedCnpjLayoutDigits(c);
    CnpjCheck.RepeatedDigitsRejectedUnlessZero(c);
    assert !CnpjCheck.IsValidCnpj(d);
    DigitsOnlyOfDigits(d);
    assert DigitsOnly(s) == d;
  }

  /** Fourteen nines fail the CNPJ checksum (test/test.ts:29). */
  lemma NinesCnpjFixture()
    ensures !CnpjCheck.IsValidCnpj("99.999.999/9999-99")
  {
    NinesCnpjLayout("99.999.999/9999-99", seq(14, _ => '9'));
    RepeatedCnpjLayoutRejected("99.999.999/9999-99", '9');
  }

  /** Fourteen ones fail the CNPJ checksum (test/test.ts:155). */
  lemma OnesCnpjFixture()
    ensures !CnpjCheck.IsValidCnpj("11.111.111/1111-11")
  {
    OnesCnpjLayout("11.111.111/1111-11", seq(14, _ => '1'));
    RepeatedCnpjLayoutRejected("11.111.111/1111-11", '1');
  }

  lemma CnpjWithLetterFixtureLayout(s: string, d: string)
    requires s == "09.172.99A/0001-20" && d == "0917299A000120"
    ensures CnpjLayout(d) == s && d == "0917299" + ['A'] + "000120"
  {
    assert d[..2] == "09" && d[2..5] == "172" && d[5..8] == "99A" && d[8..12] == "0001" && d[12..] == "20";
  }

  lemma CnpjWithLetterFixtureDigits(s: string, d: string)
    requires s == "09.172.99A/0001-20" && d == "0917299A000120"
    ensures |DigitsOnly(s)| == 13
  {
    CnpjWithLetterFixtureLayout(s, d);
    CnpjLayoutDigits(d);
    OneNonDigit("0917299", 'A', "000120");
  }

  /** A letter in place of a digit leaves thirteen digits (test/test.ts:106). */
  lemma CnpjWithLetterFixture()
    ensures !CnpjCheck.IsValidCnpj("09.172.99A/0001-20")
  {
    CnpjWithLetterFixtureDigits("09.172.99A/0001-20", "0917299A000120");
  }

  /** The document strings of the test record whose fields are all wrong hold no digit. */
  lemma NoDigitStrings(s: string)
    requires s == "abc.def.ghi-jk" || s == "xyz.xyz.xyz/abcd-ef"
    ensures DigitsOnly(s) == []
  {
    assert forall i :: 0 <= i < |s| ==> !IsDigit(s[i]);
    DigitsOnlyOfNoDigits(s);
  }

  /** Strings without a single digit are neither a CPF nor a CNPJ (test/test.ts:65-66). */
  lemma NoDigitFixtures()
    ensures !CpfCheck.IsValidCpf("abc.def.ghi-jk")
    ensures !CnpjCheck.IsValidCnpj("xyz.xyz.xyz/abcd-ef")
  {
    NoDigitStrings("abc.def.ghi-jk");
    NoDigitStrings("xyz.xyz.xyz/abcd-ef");
  }

  /** The RG strings of the tests (test/test.ts:10, 57, 67, 127, 166). */
  lemma RgFixtures()
    ensures MatchesRg("12.345.678-9")
    ensures !MatchesRg("123456789") && !MatchesRg("000000000")
    ensures !MatchesRg("12345678") && !MatchesRg("12.345.67")
  {
  }

  /** The valid CPF, CNPJ and RG of the tests together with a given name. */
  function WithValidDocuments(nome: string): Pessoa {
    Pessoa(nome, "806.462.500-94", Some("09.172.999/0001-20"), Some("12.345.678-9"))
  }

  /** The records the tests expect to pass are accepted (test/test.ts:4-13, 34-42, 71-90, 131-139). */
  lemma ExpectedAcceptances()
    ensures Accepts(WithValidDocuments("Maria da Silva"))
    ensures Accepts(Pessoa("Carlos Oliveira", "806.462.500-94", None, Some("12.345.678-9")))
    ensures Accepts(WithValidDocuments("Ana Paula"))
    ensures Accepts(Pessoa("Rafael Costa", "80646250094", Some("09172999000120"), Some("12.345.678-9")))
    ensures Accepts(Pessoa("Fabiana Torres", "806.462.500-94", None, None))
  {
    ValidCpfFixture();
    ValidCnpjFixture();
    RgFixtures();
  }

  /**
   The two records whose CPF is eleven ones are accepted by the rule as
   written, although test/test.ts:14-23 and test/test.ts:140-149 expect them
   to be rejected.
   */
  lemma RepeatedCpfRecordsAccepted()
    ensures Accepts(Pessoa("João Souza", "111.111.111-11", Some("09.172.999/0001-20"), Some("12.345.678-9")))
    ensures Accepts(Pessoa("Roberto Silva", "111.111.111-11", Some("09.172.999/0001-20"), Some("12.345.678-9")))
  {
    RepeatedCpfFixture();
    ValidCnpjFixture();
    RgFixtures();
  }

  /** Records with a bad CNPJ are rejected (test/test.ts:24-33, 101-110, 150-159). */
  lemma BadCnpjRecordsRejected()
    ensures !Accepts(Pessoa("Empresa X", "806.462.500-94", Some("99.999.999/9999-99"), Some("12.345.678-9")))
    ensures !Accepts(Pessoa("Empresa Y", "806.462.500-94", Some("09.172.99A/0001-20"), Some("12.345.678-9")))
    ensures !Accepts(Pessoa("Empresa Z", "806.462.500-94", Some("11.111.111/1111-11"), Some("12.345.678-9")))
  {
    NinesCnpjFixture();
    CnpjWithLetterFixture();
    OnesCnpjFixture();
  }

  /** Records with a short name, a bad CPF or a bad RG are rejected (test/test.ts:43-70, 91-100, 111-130, 160-169). */
  lemma OtherBadRecordsRejected()
    ensures !Accepts(Pessoa("Lu", "806.462.500-94", None, Some("12.345.678-9")))
    ensures !Accepts(Pessoa("Bruno Lima", "806.462.500-94", None, Some("123456789")))
    ensures !Accepts(Pessoa("", "abc.def.ghi-jk", Some("xyz.xyz.xyz/abcd-ef"), Some("000000000")))
    ensures !Accepts(Pessoa("Mariana Lima", "806.462.A00-94", Some("09.172.999/0001-20"), Some("12.345.678-9")))
    ensures !Accepts(WithValidDocuments(""))
    ensures !Accepts(Pessoa("Carlos Mendes", "806.462.500-94", Some("09.172.999/0001-20"), Some("12345678")))
    ensures !Accepts(Pessoa("Luciana Alves", "806.462.500-94", Some("09.172.999/0001-20"), Some("12.345.67")))
  {
    RgFixtures();
    CpfWithLetterFixture();
    NoDigitFixtures();
  }
}
