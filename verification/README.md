# Salary calculator: a verified model of the form's arithmetic and validation

The calculator is a single form with four number inputs: the cost to company
(CTC) and three percentages, EPF, ETF and Tax. On submission it computes

- total deductions = CTC × (EPF + ETF) / 100,
- gross salary = CTC − total deductions,
- net salary = gross − gross × Tax / 100,

and shows gross and net. Submission is guarded by a validation schema: CTC is
required and positive; EPF, H and Tax are required and must lie in [0, 100].
The schema names a key `H` where the form's third input is `ETF`. Nothing ever
sets `H`, so as written the form never passes validation and the arithmetic
never runs (see "## Findings").

The model has three modules:

- `Salary` (salary.dfy): the arithmetic as pure functions over exact reals,
  with conservation, identities, the closed form, bounds, monotonicity and
  scaling proved about it.
- `Form` (form.dfy): the form's values (each input is a number or empty),
  edits through the four inputs, the states reachable from the initial values,
  and the submit handler, which turns an empty input into 0.
- `Schema` (schema.dfy): the validation schema as a map from keys to rules,
  the errors it reports, the submission it guards, and the same schema with
  `ETF` in place of `H`.

The arithmetic, the submit handler and the schema come from
`src/components/SalaryCalculator.jsx`. The definitions that model each part
of that file directly:

- initial values (lines 21-26): `Form.Initial`;
- the schema (lines 27-32): `Schema.AsWritten`, with one rule per key
  checked by `Schema.Check`; `Schema.Corrected` is the same schema with ETF
  in place of H;
- reading the entries (line 34, where `Number('')` is 0): `Form.Number` and
  `Form.ToInputs`;
- total deductions (line 35): `Salary.Deductions`, over the combined rate
  `Salary.Rate`;
- gross salary (line 36): `Salary.Gross`;
- tax and net salary (line 37): `Salary.TaxOn` and `Salary.Net`;
- the result record (lines 39-42, before formatting): `Salary.Calculate`;
- the inputs (line 58) and their change handler: `Form.Field` and `Form.Set`.

## Model

| member | source | states |
|---|---|---|
| `Salary.Gross` | src/components/SalaryCalculator.jsx:35-36 | gross salary and total deductions together make up the whole CTC; gross stays at or below CTC exactly when the deductions are non-negative |
| `Salary.Net` | src/components/SalaryCalculator.jsx:37 | net salary plus the tax on gross gives gross, and net plus tax plus deductions gives back the CTC |
| `Salary.Calculate` | src/components/SalaryCalculator.jsx:35-37 | the result record accounts for the CTC: gross plus deductions is CTC, net plus tax is gross |
| `Salary.GrossIsCtcWithoutContributions` | src/components/SalaryCalculator.jsx:35-36 | EPF = ETF = 0 keeps gross equal to CTC; for a non-zero CTC, gross equals CTC exactly when EPF + ETF = 0 |
| `Salary.NetIsGrossWithoutTax` | src/components/SalaryCalculator.jsx:37 | Tax = 0 keeps net equal to gross; net equals gross exactly when Tax = 0 or gross = 0 |
| `Salary.NetClosedForm` | src/components/SalaryCalculator.jsx:35-37 | net = CTC × (1 − (EPF + ETF)/100) × (1 − Tax/100) |
| `Salary.GrossBounds` | src/components/SalaryCalculator.jsx:35-36 | for CTC > 0: gross ≥ 0 exactly when EPF + ETF ≤ 100, and gross ≤ CTC exactly when EPF + ETF ≥ 0 |
| `Salary.NetBounds` | src/components/SalaryCalculator.jsx:37 | for gross ≥ 0 and Tax in [0, 100], net lies in [0, gross]; for gross > 0 each bound holds exactly when the matching bound on Tax does |
| `Salary.GrossAntitone` | src/components/SalaryCalculator.jsx:35-36 | for CTC > 0, gross is non-increasing in EPF + ETF, strictly decreasing for a strict rise |
| `Salary.NetAntitone` | src/components/SalaryCalculator.jsx:37 | for gross ≥ 0, net is non-increasing in Tax; strictly decreasing when gross > 0 |
| `Salary.ScalesWithCtc` | src/components/SalaryCalculator.jsx:35-37 | scaling the CTC by k scales both gross and net by k |
| `Form.Set` | src/components/SalaryCalculator.jsx:58-68 | an input's change stores its entry under that input's key and leaves the other inputs and H as they were |
| `Form.EditsKeepH` | src/components/SalaryCalculator.jsx:58-68 | no sequence of input changes alters H |
| `Form.ReachableIffNoH` | src/components/SalaryCalculator.jsx:21-26 | starting from the initial values, the inputs can reach every combination of entries, and a state is reachable exactly when H is absent |
| `Form.OnSubmit` | src/components/SalaryCalculator.jsx:33-37 | the handler's gross plus deductions equals the CTC as the handler reads it, and its net plus tax equals its gross |
| `Form.OnSubmitIgnoresH` | src/components/SalaryCalculator.jsx:34 | the submit handler's result does not depend on H |
| `Form.EmptyEtfIsZeroRate` | src/components/SalaryCalculator.jsx:34-35 | an empty ETF input is charged as a 0% contribution |
| `Schema.Check` | src/components/SalaryCalculator.jsx:28-31 | a value passes its rule exactly when it is present and positive (CTC) or within [0, 100] (percentages); a missing value fails as "Required" and only then |
| `Schema.Errors` | src/components/SalaryCalculator.jsx:27-32 | the errors hold one entry for each schema key whose value fails its rule and nothing for keys outside the schema; there are none exactly when every key the schema names passes its rule |
| `Schema.Submit` | src/components/SalaryCalculator.jsx:27-37 | a submission produces results exactly when every rule of the schema passes, and those results account for the CTC: gross plus deductions is the CTC, net plus tax is gross |
| `Schema.AsWrittenAccepts` | src/components/SalaryCalculator.jsx:27-32 | the schema as written accepts exactly a positive CTC with EPF, H and Tax present and in [0, 100] |
| `Schema.AsWrittenIgnoresEtf` | src/components/SalaryCalculator.jsx:30 | the schema as written accepts or rejects regardless of ETF |
| `Schema.InitialErrors` | src/components/SalaryCalculator.jsx:21-32 | the initial values draw "Required" on CTC, EPF, H and Tax, and fail the schema |
| `Schema.AsWrittenAdmitsNegativeGross` | src/components/SalaryCalculator.jsx:29-36 | values with ETF = 200 pass the schema as written and yield negative gross and net |
| `Schema.AsWrittenNeverSubmits` | src/components/SalaryCalculator.jsx:21-33 | every state reachable through the form fails the schema as written with H "Required", so no submission produces results |
| `Schema.CorrectedAccepts` | src/components/SalaryCalculator.jsx:27-32 | the corrected schema accepts exactly a positive CTC with EPF, ETF and Tax present and in [0, 100] |
| `Schema.CorrectedSubmits` | src/components/SalaryCalculator.jsx:27-33 | every value set the corrected schema accepts can be entered through the form, and submitting it yields the submit handler's results |
| `Schema.CorrectedBounds` | src/components/SalaryCalculator.jsx:28-37 | under the corrected schema gross lies in [−CTC, CTC], is non-negative exactly when EPF + ETF ≤ 100, and then net lies in [0, gross] |
| `Schema.CorrectedAdmitsNegativeGross` | src/components/SalaryCalculator.jsx:29-36 | even the corrected schema admits EPF = ETF = 60, which gives gross −200 on a CTC of 1000 |

## Left out

- Rendering, the result rows, the layout and the success notification: presentation with no logic to state.
- Storing the results in component state: UI plumbing; the model returns the results instead.
- Rounding the results to two decimals for display: a float-to-string presentation step after the arithmetic.
- JavaScript number semantics: the arithmetic is over exact reals, so floating-point rounding, infinities and NaN are not modelled.
- Parsing of typed text: an input holds a number or is empty (a number input that does not parse is stored as the empty string); the text itself is not modelled.
- The form library's blur handling, touched fields and error display: foreign code with no effect on the results. The model keeps three things the library decides: the change handler's effect of storing the parsed number, or the empty string, under the input's name (`Form.Set`); the schema reading an empty entry as missing, so it fails as "Required" (`Schema.Check`); and the gate that runs the submit handler only when the schema reports no error (`Schema.Submit`).
- Error message texts: errors are modelled as kinds (`Required`, `MustBePositive`, `BelowMin`, `AboveMax`), not as strings.

## Findings

| source | as written | input that shows it | evidently intended | confidence | as-written member | corrected member |
|---|---|---|---|---|---|---|
| src/components/SalaryCalculator.jsx:30 | the schema requires a key `H`, which is not among the initial values and has no input, so it is always missing | any entries, e.g. CTC 100000, EPF 8, ETF 3, Tax 5: the errors hold H "Required" and the submit handler never runs | the rule on line 30 validates `ETF`, the form's third input | high; not executed | `Schema.AsWrittenNeverSubmits` | `Schema.CorrectedSubmits` |
