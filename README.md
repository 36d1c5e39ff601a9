# zod-brasil in Dafny

zod-brasil validates Brazilian personal documents. It has a CPF validator (`validarCpf`) and a CNPJ validator (`validarCnpj`). Both strip every non-digit, demand a fixed number of digits and compare the last two digits with modulo-11 check digits. It also has an RG pattern (`rgRegex`) and a record schema (`pessoaSchema`). The schema accepts a person when:
- the name has at least three characters;
- the CPF is valid;
- the CNPJ, if given, is valid;
- the RG, if given, matches the pattern.

The model has five modules:

- `Digits` (digits.dfy): the digit class, the projection `replace(/\D/g, "")` as `DigitsOnly`, and the weighted digit sum `WeightedSum` that both checksums use.
- `CpfCheck` (cpf.dfy): `ValidarCpf` is an imperative method with the loops of the source. It is proved equal to the predicate `IsValidCpf`. Lemmas about that predicate characterise it through the generator `CompleteCpf`, which appends the two check digits to nine digits. They also cover punctuation invariance, wrong lengths and repeated digits.
- `CnpjCheck` (cnpj.dfy): the same for `ValidarCnpj`. It includes the weight counter `pos` that decrements and wraps to 9, its closed form and its literal weight sequences.
- `PessoaSchema` (schema.dfy): the record rule `Accepts`, the RG pattern `MatchesRg` and its generator `FormatRg`.
- `PessoaCases` (fixtures.dfy): the documents and records of the repository's test table, evaluated against the model.

**Repeated digits.** The validators have no rule against all-identical digits. test/test.ts:14-23 and test/test.ts:140-149 expect a CPF of eleven ones to be rejected, but the code accepts it. `CpfCheck.RepeatedDigitsAccepted` proves that every CPF of eleven equal digits is accepted: the sums are 54v and 65v, and both give check digit v. `PessoaCases.RepeatedCpfRecordsAccepted` states that those two test records are accepted. The model follows the code. For the CNPJ, the checksum alone rejects every repeated digit except zero (`CnpjCheck.RepeatedDigitsRejectedUnlessZero`). So the CNPJ test records with repeated digits fail, as the tests expect.

**Remainders.** The source's `%` truncates towards zero, while Dafny's is Euclidean. The two agree here because every weight is positive, so `soma` is never negative (`CpfCheck.SumsNonNegative`, `CnpjCheck.SumsNonNegative`).

**The CNPJ check digit.** The code computes it as `soma % 11 < 2 ? 0 : 11 - soma % 11`. `CnpjCheck.CnpjCheckDigit` proves this equals `(soma * 10) % 11 % 10`, the CPF's rule written without the special case.

## Model

| member | source | states |
|---|---|---|
| Digits.DigitsOnly | src/index.ts:10 | the projection keeps only the characters '0'..'9' and is never longer than its input |
| Digits.IsDigit | src/index.ts:10 | the class `\d` without the `u` flag: exactly the characters '0'..'9'; everything else is what `\D` removes |
| Digits.DigitValue | src/index.ts:14 | `parseInt` of one digit character is a value in 0..9 |
| Digits.DigitChar | src/index.ts:14 | every value 0..9 has a digit character whose value it is (the inverse of `DigitValue`) |
| Digits.WeightedSum | src/index.ts:14 | the value of `soma` after k steps of `soma += parseInt(d[j]) * w[j]`, accumulated left to right from 0 (also lines 20, 37 and 50) |
| Digits.DigitsOnlyOfDigits | src/index.ts:10 | a string made only of digits is left unchanged by the projection |
| Digits.DigitsOnlyOfNoDigits | src/index.ts:10 | a string with no digit projects to the empty string |
| Digits.DigitsOnlyIdempotent | src/index.ts:10 | stripping twice is stripping once |
| Digits.DigitsOnlyAppend | src/index.ts:10 | the projection distributes over concatenation |
| Digits.DigitsOnlyIgnoresNonDigit | src/index.ts:10 | inserting a non-digit anywhere leaves the projection unchanged |
| Digits.DigitsOnlySplitAt | src/index.ts:10 | a non-digit separator splits the projection into the projections of its two sides |
| Digits.WeightedSumNonNegative | src/index.ts:14 | with non-negative weights the accumulated `soma` is never negative |
| Digits.WeightedSumPrefix | src/index.ts:14 | the sum over the first k digits reads no digit at or after position k |
| Digits.DigitCharOfValue | src/index.ts:17 | a digit character is determined by its value |
| Digits.WeightedSumOfRepeated | src/index.ts:14 | over copies of one digit, the weighted sum is that digit's value times the total weight |
| CpfCheck.CpfWeights | src/index.ts:14 | a pass over n digits has n weights, running from n+1 down to 2 |
| CpfCheck.CpfCheckDigit | src/index.ts:15-16 | `resto` with 10 and 11 read as 0 lies in 0..9 and equals `(soma*10) % 11 % 10` |
| CpfCheck.FirstCheckDigit | src/index.ts:14-16 | the first check digit: `CpfCheckDigit` of the sum of digits 0..8 weighted 10..2 |
| CpfCheck.SecondCheckDigit | src/index.ts:20-22 | the second check digit: `CpfCheckDigit` of the sum of digits 0..9 weighted 11..2 |
| CpfCheck.ValidCpfDigits | src/index.ts:11-23 | a digit string passes when it has 11 digits, position 9 equals the first check digit and position 10 the second |
| CpfCheck.IsValidCpf | src/index.ts:9-24 | `validarCpf(cpf)`: the digits of `cpf`, with everything else removed, pass `ValidCpfDigits` |
| CpfCheck.SumsNonNegative | src/index.ts:15 | both CPF sums are non-negative, so the truncating `%` at lines 15 and 21 agrees with Dafny's Euclidean `%` |
| CpfCheck.ValidarCpf | src/index.ts:9-24 | the method's loops and early returns give true exactly when the digits are 11 long and positions 9 and 10 equal the two check digits |
| CpfCheck.CompleteCpf | src/index.ts:13-23 | appending the two check digits to nine digits gives eleven digits that start with those nine |
| CpfCheck.WrongLengthRejected | src/index.ts:10-11 | a string whose digits are not exactly 11 is rejected |
| CpfCheck.FormattingIrrelevant | src/index.ts:10 | two strings with the same digits in the same order get the same answer |
| CpfCheck.PunctuationIrrelevant | src/index.ts:10 | a string and its digits get the same answer |
| CpfCheck.NonDigitInsertionIrrelevant | src/index.ts:10 | inserting one non-digit anywhere does not change the answer |
| CpfCheck.CheckDigitsReadPrefix | src/index.ts:14-22 | the first check digit reads only digits 0..8 and the second only digits 0..9 |
| CpfCheck.CompleteCpfAccepted | src/index.ts:13-23 | any nine digits followed by their two check digits are accepted |
| CpfCheck.ValidIffComplete | src/index.ts:9-24 | a CPF is accepted if and only if its digits are 11 long and equal the completion of their first nine |
| CpfCheck.FirstCheckDigitChangeDetected | src/index.ts:17 | changing position 9 of an accepted CPF to another digit makes it rejected |
| CpfCheck.SecondCheckDigitChangeDetected | src/index.ts:23 | changing position 10 of an accepted CPF to another digit makes it rejected |
| CpfCheck.DescendingTotal | src/index.ts:14 | the weights top, top-1, ..., top-k+1 add up to k(2·top-k+1)/2 |
| CpfCheck.RepeatedCheckDigits | src/index.ts:15-22 | the sums 54v and 65v of a repeated digit v both give check digit v |
| CpfCheck.RepeatedDigitsAccepted | src/index.ts:13-23 | every CPF of eleven equal digits is accepted, because the code has no repeated-digit rule |
| CnpjCheck.CnpjWeights | src/index.ts:34-38 | a pass over n digits has n weights, read from the counter started at n-7 |
| CnpjCheck.CnpjCheckDigit | src/index.ts:41 | `soma % 11 < 2 ? 0 : 11 - soma % 11` lies in 0..9 and equals `(soma*10) % 11 % 10` |
| CnpjCheck.TimesTenModEleven | src/index.ts:41 | multiplying by ten before or after reducing modulo 11 gives the same remainder |
| CnpjCheck.NextWeight | src/index.ts:37-38 | one step of the counter: `pos--`, then 9 when the result falls below 2 |
| CnpjCheck.WeightAt | src/index.ts:34-38 | the counter's value after k steps from `start`, the weight applied to digit k |
| CnpjCheck.FirstCheckDigit | src/index.ts:30-41 | the first check digit: `CnpjCheckDigit` of the sum of digits 0..11 weighted by the counter started at 5 |
| CnpjCheck.SecondCheckDigit | src/index.ts:44-54 | the second check digit: `CnpjCheckDigit` of the sum of digits 0..12 weighted by the counter started at 6 |
| CnpjCheck.ValidCnpjDigits | src/index.ts:28-55 | a digit string passes when it has 14 digits, position 12 equals the first check digit and position 13 the second |
| CnpjCheck.IsValidCnpj | src/index.ts:26-56 | `validarCnpj(cnpj)`: the digits of `cnpj`, with everything else removed, pass `ValidCnpjDigits` |
| CnpjCheck.SumsNonNegative | src/index.ts:41 | both CNPJ sums are non-negative, so the truncating `%` at lines 41 and 54 agrees with Dafny's Euclidean `%` |
| CnpjCheck.ValidarCnpj | src/index.ts:26-56 | the method's two counter-driven loops and early return give true exactly when the digits are 14 long and positions 12 and 13 equal the two check digits |
| CnpjCheck.WeightInRange | src/index.ts:37-38 | the counter `pos`, started in 2..9, stays in 2..9 |
| CnpjCheck.WeightClosedForm | src/index.ts:37-38 | after k steps the counter is 2 + (start-2-k) mod 8, a cycle of period 8 |
| CnpjCheck.WeightsWrittenOut | src/index.ts:34-39 | the first pass weighs by 5,4,3,2,9,8,7,6,5,4,3,2 and the second by 6,5,4,3,2,9,8,7,6,5,4,3,2, all in 2..9 |
| CnpjCheck.CompleteCnpj | src/index.ts:30-55 | appending the two check digits to twelve digits gives fourteen digits that start with those twelve |
| CnpjCheck.WrongLengthRejected | src/index.ts:27-28 | a string whose digits are not exactly 14 is rejected |
| CnpjCheck.PunctuationIrrelevant | src/index.ts:27 | a string and its digits get the same answer |
| CnpjCheck.NonDigitInsertionIrrelevant | src/index.ts:27 | inserting one non-digit anywhere does not change the answer |
| CnpjCheck.CompleteCnpjAccepted | src/index.ts:30-55 | any twelve digits followed by their two check digits are accepted |
| CnpjCheck.ValidIffComplete | src/index.ts:26-56 | a CNPJ is accepted if and only if its digits are 14 long and equal the completion of their first twelve |
| CnpjCheck.FirstCheckDigitChangeDetected | src/index.ts:42 | changing position 12 of an accepted CNPJ to another digit makes it rejected |
| CnpjCheck.SecondCheckDigitChangeDetected | src/index.ts:55 | changing position 13 of an accepted CNPJ to another digit makes it rejected |
| CnpjCheck.RepeatedFirstCheckDigit | src/index.ts:36-41 | the first sum 58v of a repeated digit v gives check digit v only for v = 0 |
| CnpjCheck.RepeatedDigitsRejectedUnlessZero | src/index.ts:26-56 | fourteen equal digits are accepted if and only if the digit is 0 |
| PessoaSchema.MatchesRg | src/index.ts:6 | `rgRegex.test(rg)`: exactly 12 characters, digits at positions 0, 1, 3-5, 7-9 and 11, '.' at 2 and 6, '-' at 10 |
| PessoaSchema.Accepts | src/index.ts:72-77 | `pessoaSchema.safeParse(p).success`: the name has at least 3 characters, the CPF is valid, and the CNPJ and RG are each absent or valid |
| PessoaSchema.FormatRg | src/index.ts:6 | nine digits laid out as NN.NNN.NNN-N match the RG pattern and project back to the same nine digits |
| PessoaSchema.MatchesRgIffFormatted | src/index.ts:6 | a string matches the RG pattern if and only if it is its nine digits in the RG layout |
| PessoaSchema.OmittingOptionalFieldsKeepsAcceptance | src/index.ts:75-76 | dropping the CNPJ, the RG or both from an accepted record keeps it accepted |
| PessoaSchema.PunctuationInDocumentsIrrelevant | src/index.ts:74-75 | replacing the record's CPF and CNPJ by their digits does not change acceptance |
| PessoaSchema.AcceptsIffWellFormed | src/index.ts:72-77 | a record is accepted if and only if the name has at least three characters, the CPF's and any CNPJ's digits are their own completions, and any RG is nine digits in the RG layout |
| PessoaCases.CpfLayoutDigits | src/index.ts:10 | the separators of the layout NNN.NNN.NNN-NN are dropped by the projection |
| PessoaCases.CnpjLayoutDigits | src/index.ts:27 | the separators of the layout NN.NNN.NNN/NNNN-NN are dropped by the projection |
| PessoaCases.ValidCpfFixture | test/test.ts:8 | 806.462.500-94 and 80646250094 are accepted |
| PessoaCases.RepeatedCpfFixture | test/test.ts:18 | 111.111.111-11 is accepted as written, although the test expects a rejection |
| PessoaCases.CpfWithLetterFixture | test/test.ts:95 | 806.462.A00-94 leaves ten digits and is rejected |
| PessoaCases.ValidCnpjFixture | test/test.ts:9 | 09.172.999/0001-20 and 09172999000120 are accepted |
| PessoaCases.NinesCnpjFixture | test/test.ts:29 | 99.999.999/9999-99 is rejected |
| PessoaCases.OnesCnpjFixture | test/test.ts:155 | 11.111.111/1111-11 is rejected |
| PessoaCases.CnpjWithLetterFixture | test/test.ts:106 | 09.172.99A/0001-20 leaves thirteen digits and is rejected |
| PessoaCases.NoDigitFixtures | test/test.ts:65-66 | strings without a digit are neither a CPF nor a CNPJ |
| PessoaCases.RgFixtures | test/test.ts:57 | 12.345.678-9 matches the RG pattern; 123456789, 000000000, 12345678 and 12.345.67 do not |
| PessoaCases.ExpectedAcceptances | test/test.ts:4-13 | the five records the tests expect to pass are accepted |
| PessoaCases.RepeatedCpfRecordsAccepted | test/test.ts:14-23 | the two records with CPF 111.111.111-11 are accepted, contrary to the tests' expectation |
| PessoaCases.BadCnpjRecordsRejected | test/test.ts:24-33 | the three records with a bad CNPJ are rejected |
| PessoaCases.OtherBadRecordsRejected | test/test.ts:43-70 | the records with a short or empty name, a CPF containing a letter or a malformed RG are rejected |

## Left out

- The zod library (`z.string()`, `.refine`, `.optional`, `.min`, `safeParse`, `error.format()`) is not modelled. The model keeps only the acceptance predicate the schema expresses, without error objects or messages. Non-string field values, which zod rejects by type, cannot occur in the typed record `Pessoa`.
- `cpfRegex` and `cnpjRegex` (src/index.ts:4-5) are declared but never used by the code, so they are not modelled.
- Regular expressions in general are not modelled. `rgRegex` becomes the fixed twelve-character check `MatchesRg`, with `$` matching only at the end of the input. `\D` is "not '0'..'9'".
- `parseInt` and NaN are not modelled. After stripping only '0'..'9' remain, so a digit's value is its code minus the code of '0'.
- PessoaSchema.Accepts: counts the name's length in Dafny characters. zod's `.min(3)` counts UTF-16 code units, so the two differ for names containing characters outside the Basic Multilingual Plane.
- The test runner's loop and console output (test/test.ts:172-186) are I/O and not modelled. The test table's records appear as lemmas instead.
- No rejection of all-identical digits, which the tests expect, because the code has none.
