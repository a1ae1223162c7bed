# IVF success calculator — a Dafny model of the backend core

This project models the Go backend of the IVF success-rate calculator. The
backend does three things:

- It **selects** one row of the CDC formula table (`findMatchingFormula`).
  The row is chosen by three keys:
  - whether the patient uses her own eggs;
  - whether she attempted IVF before (asked only for own eggs);
  - whether the reason for infertility is known.
- It **evaluates** the selected formula (`Calculate`):
  - the logit is the intercept, plus linear and power terms in age and BMI,
    plus one coefficient per infertility factor, plus one coefficient per
    prior-pregnancy and prior-birth bucket;
  - the logit goes through the logistic function;
  - the result is rounded *up* to hundredths of a percent.
- It **validates** requests (`ValidateCalculateRequest`). The result is a
  map from JSON field name to error message. The HTTP handler calls the
  calculator only when that map is empty.

The Dafny files:

| file | module | contents |
|---|---|---|
| `wrappers.dfy` | `Wrappers` | `Option` (Go's nil pointers) |
| `strings.dfy` | `Strings` | Go's `strings.TrimSpace`, ASCII upper-casing, the `contains` helper |
| `formulas.dfy` | `Formulas` | the `Formula` record, `ternary`, the count buckets, `parseBool`, the attempted-IVF cell rule of the loader |
| `requests.dfy` | `Requests` | `CalculateRequest`, `CalculateResponse` |
| `selector.dfy` | `Selector` | `findMatchingFormula` and properties of the selection |
| `evaluator.dfy` | `Evaluator` | `calculateBMI`, the logit, the logistic link, ceiling rounding, `Calculate` |
| `validation.dfy` | `Validation` | `ValidateCalculateRequest`, as a method proved equal to a field-by-field description |
| `handler.dfy` | `CalculateHandler` | the validate-then-calculate step of `PostCalculate` |

Modelling choices:

- The formula table is an explicit `seq<Formula>` parameter. In Go it is a
  package-level variable filled at start-up.
- `math.Pow` and `math.Exp` are function parameters `pow` and `exp`. The
  only fact assumed of `exp` is that its values are positive.
- Floating point is modelled as exact `real` arithmetic.
- Validation errors are collected in a map keyed by an enumeration `Field`.
  `Validation.ByName` renames the keys to the JSON names (`"age"`,
  `"weightLbs"`, …), and that map is the handler's 400 answer.

Places where the code and its own messages or tests disagree. The model
follows the code in each case.

- The height messages say "between 4 and 7" and "between 0 and 12". The
  checks reject 7 feet and 12 inches (`Validation.SevenFeetRejectedExample`).
- The validator's test table expects "unexplained" and "unknown" to be
  rejected when combined with another reason. The code has no such rule,
  so these combinations are accepted (`Validation.CombinedReasonsAccepted`).

Behaviour of the code worth knowing, stated by the model:

- Rounding up maps every probability above 0.9999 to exactly 100.00, so
  the chance lies in (0, 100] (`Evaluator.ChancePercentRange`).
- The calculator's bucket getters put every count other than 0 and 1,
  negative counts included, into the "2+" bucket. The validator rejects
  negative counts before the calculator sees them.
- The unexplained-infertility coefficient is switched by the reason
  "unexplained" alone. Adding "unknown" changes which row is selected but
  not the logit of a row (`Evaluator.LogitIgnoresUnknown`).
- `Calculate` creates its "no formulas" and "no match" errors and then
  ignores them, so a nil formula is dereferenced when no row matches. The
  handler model shows this as the outcome `NoFormula`.
  `CalculateHandler.ValidRequestIsCalculable` shows that a match exists
  for every valid request when the table holds all six key tuples.

## Model

| member | source | states |
|---|---|---|
| Strings.TrimSpace | backend/internal/calculator/calculator.go:170 | The result has no Unicode white space at either end. It is the input with only white space removed from each end. |
| Strings.TrimSpacePadded | backend/internal/calculator/calculator.go:170 | Trimming a word that is itself trimmed, padded with any white space on both sides, gives the word back. |
| Strings.ToUpper | backend/internal/calculator/calculator.go:170 | Upper-casing keeps the length, turns every lower-case ASCII letter into its capital, keeps every other character, and leaves no lower-case ASCII letter. |
| Strings.Contains | backend/internal/calculator/calculator.go:331-338 | `contains` is true exactly when the item occurs in the slice. |
| Formulas.Ternary | backend/internal/calculator/calculator.go:340-345 | A present factor takes the pair's true value, an absent one its false value. |
| Formulas.BucketOf | backend/internal/calculator/calculator.go:241-258 | A count is in bucket zero iff it is 0, bucket one iff it is 1, and otherwise (2 and above, or negative) in bucket 2+. |
| Formulas.PriorPregnanciesValue | backend/internal/calculator/calculator.go:241-248 | The pregnancy coefficient is the one of the count's bucket. Every count other than 0 and 1 takes the 2+ value. |
| Formulas.PriorLiveBirthsValue | backend/internal/calculator/calculator.go:250-258 | The live-birth coefficient is the one of the count's bucket. Every count other than 0 and 1 takes the 2+ value. |
| Formulas.Factors | backend/internal/calculator/calculator.go:290-313 | The logit tests eight factor tags. They are pairwise distinct and none of them is "unknown", so a reason switches at most one pair. |
| Formulas.ParseBool | backend/internal/calculator/calculator.go:169-171 | A cell reads as true exactly when, after trimming, it is the four letters t-r-u-e in any mix of cases. |
| Formulas.ParseBoolCharacterization | backend/internal/calculator/calculator.go:169-171 | `parseBool` accepts exactly the strings made of white space, a case-insensitive "true", and white space. |
| Formulas.ParseAttemptedCell | backend/internal/calculator/calculator.go:120-126 | The attempted-IVF cell is nil exactly for the literal "N/A" or the empty string, and true exactly when `parseBool` accepts it. |
| Formulas.PaddedNotApplicableIsFalse | backend/internal/calculator/calculator.go:120-126 | "N/A" with white space on either side is not the nil marker: it reads as Some(false). |
| Formulas.PaddedTrueIsTrue | backend/internal/calculator/calculator.go:120-126 | Any case spelling of "true" with white space around it reads as Some(true). |
| Formulas.AttemptedCellRoundTrip | backend/internal/calculator/calculator.go:120-126 | Writing a flag (nil, true or false) as its canonical cell and reading it back gives the flag. |
| Selector.DeriveKeys | backend/internal/calculator/calculator.go:197-199 | Own eggs iff the egg source is exactly "own". An earlier attempt iff the answer is exactly "yes". The reason is known iff "unknown" is not among the reasons. |
| Selector.Admits | backend/internal/calculator/calculator.go:204-229 | The chain of `continue` tests admits a row exactly when the row's key tuple equals the wanted key. For donor eggs the wanted attempted flag is nil. |
| Selector.FirstMatchFrom | backend/internal/calculator/calculator.go:201-232 | Scanning from row i, when no earlier row was admitted, returns the first admitted row, or none when no row is admitted. |
| Selector.FindMatchingFormula | backend/internal/calculator/calculator.go:196-233 | The result is a row whose egg source, attempted flag (nil for donor rows) and reason-known flag match the request, and no earlier row matches. The result is None iff no row matches. |
| Selector.SameAdmissionSameChoice | backend/internal/calculator/calculator.go:201-232 | Two requests that admit the same rows select the same row. |
| Selector.OwnRowWithoutFlagNeverSelected | backend/internal/calculator/calculator.go:210-213 | An own-egg row with a nil attempted flag is never selected. |
| Selector.DonorIgnoresPriorIvf | backend/internal/calculator/calculator.go:217-222 | For a request not using own eggs, changing the prior-IVF answer does not change the selection. |
| Selector.OnlyYesIsAttempted | backend/internal/calculator/calculator.go:198 | Every answer other than exactly "yes" selects the same row as "no". |
| Selector.SelectionSeesOnlyUnknown | backend/internal/calculator/calculator.go:199 | Reason lists that agree on whether "unknown" occurs select the same row. |
| Selector.CompleteTableAlwaysSelects | backend/internal/calculator/calculator.go:196-233 | With all six key tuples in the table, every request selects a row whose key is the wanted key. |
| Selector.UniqueKeysSingleMatch | backend/internal/calculator/calculator.go:201-232 | When the table's key tuples are unique, the selected row is the only row carrying the wanted key. |
| Selector.TestScenariosSelect | backend/internal/calculator/calculator_test.go:151-220 | The three test scenarios select own-egg rows with the expected attempted flag and reason-known flag. |
| Evaluator.Bmi | backend/internal/calculator/calculator.go:236-238 | BMI times height² (in inches) equals weight × 703. The BMI is positive for a positive weight. |
| Evaluator.Logit | backend/internal/calculator/calculator.go:278-317 | The logit is the sum of: the intercept; the age and BMI linear-plus-power terms; each of the eight pairs chosen by membership of its own tag; and the two bucket coefficients. |
| Evaluator.FactorSumFront | backend/internal/calculator/calculator.go:290-301 | The factor part starts with the tubal, male-factor, endometriosis and ovulatory pairs, each chosen by membership of its own tag. |
| Evaluator.FactorSumBack | backend/internal/calculator/calculator.go:303-313 | The rest of the factor part is the ovarian-reserve, uterine, other and unexplained pairs, each chosen by membership of its own tag. |
| Evaluator.FactorSumSameMembership | backend/internal/calculator/calculator.go:290-313 | The factor part is the same for any two reason lists that agree on which tags occur. |
| Evaluator.FactorSumAddReason | backend/internal/calculator/calculator.go:290-313 | Adding one absent tag changes the factor part by exactly that pair's true value minus its false value. |
| Evaluator.FactorSumNoTags | backend/internal/calculator/calculator.go:290-313 | With no tag among the reasons, the factor part is the sum of the false values. |
| Evaluator.LogitSeesOnlyMembership | backend/internal/calculator/calculator.go:290-313 | Reordering or repeating reasons does not change the logit. |
| Evaluator.LogitAddReason | backend/internal/calculator/calculator.go:290-313 | Adding the absent tag of factor k raises the logit by factor k's true value minus its false value. |
| Evaluator.UnknownAloneTakesFalseValues | backend/internal/calculator/calculator.go:309-313 | With "unknown" as the only reason, every factor, including "unexplained", contributes its false value. |
| Evaluator.FactorSumIgnoresUnknown | backend/internal/calculator/calculator.go:290-313 | Appending "unknown" to any reason list leaves the factor part unchanged. |
| Evaluator.LogitIgnoresUnknown | backend/internal/calculator/calculator.go:278-317 | Appending "unknown" to the reasons leaves the logit of every row unchanged. |
| Evaluator.LogitSameForTwoPlus | backend/internal/calculator/calculator.go:315-317 | Counts of pregnancies and births other than 0 and 1 give the same logit as a count of 2. |
| Evaluator.LogitPregnancyBucketShift | backend/internal/calculator/calculator.go:316 | Changing the pregnancy count changes the logit by the difference of the two buckets' coefficients. |
| Evaluator.Logistic | backend/internal/calculator/calculator.go:320 | For a positive exp(logit), the probability lies strictly between 0 and 1, and its odds p/(1-p) are exp(logit). |
| Evaluator.LogisticMonotone | backend/internal/calculator/calculator.go:320 | A larger exp(logit) gives a larger or equal probability. |
| Evaluator.Ceil | backend/internal/calculator/calculator.go:323 | The ceiling n satisfies n-1 < x <= n. |
| Evaluator.ChancePercent | backend/internal/calculator/calculator.go:323 | The percentage is a whole number of hundredths, at least p×100 and less than p×100 + 0.01. |
| Evaluator.ChancePercentMonotone | backend/internal/calculator/calculator.go:323 | Rounding up preserves the order of probabilities. |
| Evaluator.ChancePercentIdempotent | backend/internal/calculator/calculator.go:323 | Rounding an already-rounded percentage leaves it unchanged. |
| Evaluator.ChancePercentRange | backend/internal/calculator/calculator.go:320-323 | A probability in (0, 1) gives a percentage in (0, 100]. Any probability above 0.9999 gives exactly 100. |
| Evaluator.SelectedFormula | backend/internal/calculator/calculator.go:268 | The evaluated row is a row of the table and carries the wanted key tuple. |
| Evaluator.Probability | backend/internal/calculator/calculator.go:319-320 | The probability of the selected formula lies strictly between 0 and 1. |
| Evaluator.Calculate | backend/internal/calculator/calculator.go:261-328 | The response is the selected formula's probability as a percentage rounded up to hundredths: within 0.01 above p×100, a whole number of hundredths, in (0, 100]. |
| Evaluator.CalculateSeesOnlyMembership | backend/internal/calculator/calculator.go:261-328 | The response depends on the reasons only through which strings occur among them. |
| Validation.ByName | backend/internal/validation/calculate_request.go:8-73 | The keys are the JSON field names, each message is kept under its field's name, and the map is empty iff there are no errors. |
| Validation.FirstInvalidReason | backend/internal/validation/calculate_request.go:66-71 | Returns the index of the first reason outside the nine-word vocabulary, or none when every reason is in it. |
| Validation.CheckRanges | backend/internal/validation/calculate_request.go:11-29 | After the range checks, the map holds exactly the expected entries for age, weight, feet, inches and pregnancies. |
| Validation.CheckBirths | backend/internal/validation/calculate_request.go:31-40 | The births entry becomes the expected one: the range message, the relation message, or both joined by "; ". |
| Validation.CheckEggSource | backend/internal/validation/calculate_request.go:42-48 | The egg-source entry exists iff the source is neither "own" nor "donor". The prior-IVF entry exists iff the source is "own" and the answer is empty. |
| Validation.CheckReasons | backend/internal/validation/calculate_request.go:50-71 | An empty list gives the "at least one" message. Otherwise the first reason outside the vocabulary is named, and no entry is made when there is none. |
| Validation.ValidateCalculateRequest | backend/internal/validation/calculate_request.go:8-73 | The returned map equals the field-by-field description of every check's condition and message. |
| Validation.NoErrorsIffValid | backend/internal/validation/calculate_request.go:8-73 | The map is empty exactly when all ranges hold, births do not exceed pregnancies, the egg source is "own" or "donor", own eggs come with a prior-IVF answer, and the reasons are non-empty and all in the vocabulary. |
| Validation.OnlyFirstInvalidReasonReported | backend/internal/validation/calculate_request.go:66-71 | The reasons message names the first invalid reason. Appending further reasons does not change it. |
| Validation.VocabularyReasonsAccepted | backend/internal/validation/calculate_request.go:50-71 | A non-empty list of vocabulary words, in any combination, gives no reasons entry. |
| Validation.ChecksAreLocal | backend/internal/validation/calculate_request.go:8-73 | Changing the age affects only the age entry. Changing the reasons affects only the reasons entry. |
| Validation.ValidExampleAccepted | backend/internal/validation/calculate_request_test.go:16-29 | The valid test request yields no errors. |
| Validation.MissingFieldsExample | backend/internal/validation/calculate_request_test.go:30-46 | The out-of-range request with zero-valued fields yields exactly the six expected messages. |
| Validation.OwnEggsNeedPriorIvfExample | backend/internal/validation/calculate_request_test.go:47-60 | Own eggs without a prior-IVF answer yield only the prior-IVF message. |
| Validation.BirthsExceedExample | backend/internal/validation/calculate_request_test.go:61-76 | Two births after one pregnancy yield only the relation message. |
| Validation.BirthsBothMessagesExample | backend/internal/validation/calculate_request.go:31-40 | Three births after one pregnancy yield the range message and the relation message joined by "; ". |
| Validation.InvalidReasonExample | backend/internal/validation/calculate_request_test.go:77-92 | An unknown word yields "invalid reason: " followed by that word. |
| Validation.SevenFeetRejectedExample | backend/internal/validation/calculate_request_test.go:125-140 | A height of 7 feet is rejected with the "between 4 and 7" message. |
| Validation.EmptyReasonsExample | backend/internal/validation/calculate_request_test.go:141-156 | An empty reason list yields only the "at least one reason" message. |
| Validation.CombinedReasonsAccepted | backend/internal/validation/calculate_request_test.go:93-124 | The two "must be alone" combinations of the test table pass the code's validation with no errors. |
| CalculateHandler.ValidRequestIsCalculable | backend/internal/http/handlers/calculate.go:30-38 | A valid request has a height between 48 and 83 inches. Against a table with all six key tuples it selects a row. |
| CalculateHandler.PostCalculate | backend/internal/http/handlers/calculate.go:29-40 | For any table: the answer is a bad request iff the request is invalid, and then carries the non-empty error map by JSON name. A valid request that no row matches ends in the nil dereference. Otherwise the answer is the calculator's response. |

## Left out

- Loading the CSV file (`loadFormulas`, `getCSVPath`, `parseFloat`). The table is an input. Only the attempted-IVF cell rule and `parseBool` are modelled.
- Selector.CompleteTableAlwaysSelects: assumes (as `CoversAllKeys`) that the table holds all six key tuples. That is a property of the shipped CSV file, which is not part of this model.
- IEEE-754 doubles: all arithmetic is exact `real`. NaN, infinities and round-off are not modelled.
- Evaluator.Bmi: `math.Pow(h, 2.0)` is modelled as the exact square `h*h`, and a zero height (Go's division by zero giving +Inf) is excluded by a precondition.
- Evaluator.Calculate: `math.Pow` and `math.Exp` are uninterpreted parameters. The only property used is that `exp` is positive.
- Evaluator.Calculate: requires a matching row. The Go code would dereference a nil formula when there is none; the handler model covers that case.
- CalculateHandler.PostCalculate: the nil-formula panic is the outcome `NoFormula`. The recovery middleware's 500 answer and its body are not modelled.
- Go's `int` is 64 bits. Overflow of `heightFt*12 + heightIn` and of the counts is not modelled, because validated requests are far from the limits.
- Strings.ToUpper: only ASCII letters are upper-cased. Go's Unicode case mapping of other letters is not modelled, because no non-ASCII letter upper-cases to T, R, U or E.
- Go strings are byte sequences. The model's strings are sequences of Unicode characters, so invalid UTF-8 and Go's handling of it are not modelled.
- JSON binding and the "invalid request format" answer of `PostCalculate`, HTTP status codes, the router, and the frontend.
- The "must be selected by itself" rule for "unexplained" and "unknown" that the validator's test table expects. The code does not implement it.
