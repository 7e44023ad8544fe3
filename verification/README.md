# Norwegian tax estimator — Dafny model

A model of the arithmetic and validation core of a small Norwegian income-tax
estimator. A shared zod schema describes the input record: personal data,
work income, bank/loan figures and property figures. The calculator page
annualises the salary from the pay period it was entered in and posts the
record to a server function, `calculateTax`. That function sums the income
and applies a capped standard deduction, a mortgage-interest deduction and
three flat levies (12% "bracket tax", 8.2% insurance contribution, 22% common
tax). The page shows the server's breakdown, including the server's own
marginal and average rates.

The client also holds helpers that are not wired to that breakdown:
- `calculateTaxPercentages` splits a breakdown's total tax into component
  shares.
- A summary component computes a marginal rate from a six-step table, a
  zero-guarded average rate and a net income. It reads figures the user
  entered into the form, not the server's breakdown.
- The form recomputes a parental deduction from the child count, and
  coerces entries to numbers on submit.

All amounts are exact `real` numbers. JavaScript's `Number` is a double, but
every rule here uses only addition, subtraction, multiplication, `min` and
division, which exact reals compute exactly, so exact arithmetic states the
intended values. A division that JavaScript turns into NaN or Infinity is `None`.
`JSON.stringify` sends both as `null`.

Modules, one per source file:

- `Wrappers` (wrappers.dfy): `Option`, with `GetOr` for the `x || 0` idiom.
- `Schema` (schema.dfy): the zod schemas as datatypes and the `TaxBreakdown`
  record. Parsing is `Validate`, which lists every failing field the way zod
  collects all issues. `Valid` means that list is empty.
- `Storage` (storage.dfy): `calculateTax` and its parts.
- `Utils` (utils.dfy): `annualizeAmount` and `calculateTaxPercentages`.
- `Summary` (summary.dfy): the marginal-rate chain, the average rate and
  the net income of the summary component, lifted into functions of the
  total income and total tax they read. The marginal-rate chain is also proved equal to a
  lookup in an ordered (limit, rate) table.
- `Form` (form.dfy): the parental-deduction effect and the numeric coercion
  done on submit and by the number inputs.
- `Calculator` (calculator.dfy): the request the page sends (only the
  salary is annualised), and lemmas comparing the server's formulas with
  the client helpers' formulas when both are applied to the same totals.

Several behaviours of the code are surprising. The model keeps them as
written:

- The total tax is not clamped at zero. For income strictly between 0 and
  109 950 / 0.422 with no mortgage interest, it is negative
  (`Storage.NegativeTaxBelowBreakEven`).
- The "bracket tax" is a flat 12%, not a progressive schedule. The six-step
  table exists only in the client's marginal-rate display.
- The server's marginal rate is the constant 34.0. The server's average rate
  has no guard for zero income.
- The server fills 10 of the 15 `TaxBreakdown` fields. The other five are
  `None` in the model.

## Model

| member | source | states |
|---|---|---|
| Schema.ParsePeriod | shared/schema.ts:78-85 | the period check accepts only one of the six period names, and what it returns names the accepted string |
| Schema.PeriodRoundTrip | shared/schema.ts:3-10 | every period's name is accepted and parses back to that period |
| Schema.PeriodAccepted | shared/schema.ts:78-85 | a string passes the period check iff it is the name of one of the six periods |
| Schema.ParseCivilStatus | shared/schema.ts:25-31 | the civil-status check accepts only one of the five status names |
| Schema.CivilStatusRoundTrip | shared/schema.ts:12-19 | every status name is accepted and parses back to that status |
| Schema.CivilStatusAccepted | shared/schema.ts:25-31 | a string passes the civil-status check iff it is one of the five status names |
| Schema.IssuesAmong | shared/schema.ts:73-87 | the issues collected over a list of fields are exactly the listed fields whose rule fails |
| Schema.Validate | shared/schema.ts:73-87 | parsing a record reports a field iff that field's rule fails |
| Schema.ValidIffAllRulesHold | shared/schema.ts:73-87 | a record parses without issues iff every field rule holds |
| Schema.BirthYearRule | shared/schema.ts:23 | birthYear is rejected iff it is outside [1900, current year] |
| Schema.SpouseBirthYearRule | shared/schema.ts:24 | an absent spouse birth year is never rejected; a present one is rejected iff outside [1900, current year] |
| Schema.EnumRules | shared/schema.ts:25-85 | civilStatus is rejected iff it is not one of the five names, and period iff it is not one of the six |
| Schema.RequiredAmountRules | shared/schema.ts:33-46 | salary is rejected iff negative; numberOfDependents iff negative, with fractions accepted |
| Schema.OptionalIncomeRules | shared/schema.ts:47-53 | each optional income field is rejected iff present and negative |
| Schema.BankAndPropertyRules | shared/schema.ts:58-69 | each bank, loan and property amount is rejected iff present and negative |
| Schema.ValidAmountsNonNegative | shared/schema.ts:45-85 | a valid record has non-negative income, non-negative mortgage interest when present, and a recognised period |
| Storage.SumPresent | server/storage.ts:5-13 | a sum of optional amounts, absent ones counting 0, is non-negative when every present amount is |
| Storage.TotalIncome | server/storage.ts:5-13 | total income is salary plus the present optional sources, absent ones counting 0; for valid income it is at least the salary and non-negative |
| Storage.StandardDeduction | server/storage.ts:16 | the standard deduction is the lesser of 45% of income and 109 950: never above either, equal to one, non-negative for non-negative income |
| Storage.MortgageDeduction | server/storage.ts:19 | the mortgage deduction is a quarter of the interest, 0 when the interest is absent, non-negative for valid interest |
| Storage.ServerAverageRate | server/storage.ts:39 | the server's average rate is a number iff income is non-zero, and then rate × income = 100 × tax |
| Storage.CalculateTax | server/storage.ts:3-41 | bracket tax, insurance and common tax are 12%, 8.2% and 22% of total income for every record (42.2% together); tax + deductions = levies (no clamp); net pay + tax = income; marginal rate is always 34.0; average rate defined iff income ≠ 0; five fields unset |
| Storage.LeviesMonotone | server/storage.ts:22-24 | for any two records, more total income never gives a smaller bracket tax, insurance contribution or common tax |
| Storage.LeviesNonNegative | server/storage.ts:5-24 | for a valid record, total income and each of the three levies are non-negative |
| Storage.NegativeTaxBelowBreakEven | server/storage.ts:16-27 | with no (or zero) mortgage interest, any income strictly between 0 and 109 950 / 0.422 gives a negative total tax |
| Storage.TaxSignWithoutMortgage | server/storage.ts:16-27 | with no (or zero) mortgage interest and positive income, total tax ≥ 0 iff income ≥ 109 950 / 0.422 |
| Storage.MortgageLowersTax | server/storage.ts:19-27 | for any two interest amounts, total tax differs by exactly a quarter of their difference, lower for more interest |
| Storage.TaxFallsWithIncomeBelowCap | server/storage.ts:16-27 | for records with the same bank/loan figures, while 45% of the larger income is below the cap, more income gives strictly less total tax |
| Storage.SalaryOnlyExample | server/storage.ts:3-41 | a salary of 500 000 alone gives levies 60 000 / 41 000 / 110 000, deduction 109 950, total tax 101 050, net pay 398 950, average 20.21, marginal 34.0 |
| Storage.ZeroIncomeExample | server/storage.ts:19-39 | zero income gives no average rate, and positive mortgage interest then gives a negative total tax and a positive net pay |
| Storage.AverageAboveReportedMarginal | server/storage.ts:38-39 | above 109 950 / (0.422 − 0.34) of income with no (or zero) mortgage interest, the reported average rate exceeds the reported marginal rate |
| Utils.PeriodsPerYear | client/src/components/TaxCalculator/utils.ts:18-28 | every period's annual factor is at least 1 |
| Utils.AnnualizeAmount | client/src/components/TaxCalculator/utils.ts:17-31 | a recognised period multiplies the amount by its periods per year (12, 24, 52, 365, 1920, or 1 for Annual); any other string leaves it unchanged |
| Utils.AnnualizeGrows | client/src/components/TaxCalculator/utils.ts:17-31 | a non-negative amount never shrinks when annualised, and 0 stays 0 |
| Utils.AnnualizeLinear | client/src/components/TaxCalculator/utils.ts:17-31 | for a fixed period, annualising is linear in the amount |
| Utils.AnnualizeInjective | client/src/components/TaxCalculator/utils.ts:17-31 | two amounts with the same annual value for one period are equal |
| Utils.CalculateTaxPercentages | client/src/components/TaxCalculator/utils.ts:34-43 | all shares are 0 for a zero total tax; otherwise share × total = component × 100 for each component |
| Utils.SharesSumTo100Iff | client/src/components/TaxCalculator/utils.ts:38-42 | with a non-zero total, the shares sum to 100 iff the total equals bracket + insurance + common |
| Summary.RateIn | client/src/components/TaxCalculator/TaxSummary.tsx:16-24 | a table lookup returns the top rate or one of the table's rates, and never exceeds a top rate that bounds the table |
| Summary.RateInAtLeastFirst | client/src/components/TaxCalculator/TaxSummary.tsx:16-24 | in an ordered table, the looked-up rate is at least the first row's rate |
| Summary.RateInMonotone | client/src/components/TaxCalculator/TaxSummary.tsx:16-24 | in an ordered table, the looked-up rate is non-decreasing in income |
| Summary.MarginalRate | client/src/components/TaxCalculator/TaxSummary.tsx:16-24 | the marginal rate is 0 iff income ≤ 217 400, 17.7 iff income > 1 410 750, and always one of the six listed rates in [0, 17.7] |
| Summary.MarginalRateIsTableLookup | client/src/components/TaxCalculator/TaxSummary.tsx:16-24 | the comparison chain equals the lookup in the table with inclusive limits 217 400, 306 050, 697 150, 942 400, 1 410 750 |
| Summary.BracketsWellFormed | client/src/components/TaxCalculator/TaxSummary.tsx:18-23 | the limits ascend and the rates never decrease up to the top rate 17.7 |
| Summary.MarginalRateMonotone | client/src/components/TaxCalculator/TaxSummary.tsx:16-24 | the marginal rate is non-decreasing in income |
| Summary.AverageRate | client/src/components/TaxCalculator/TaxSummary.tsx:26-30 | the average rate is 0 for zero income, otherwise rate × income = 100 × tax |
| Summary.AverageRateBounds | client/src/components/TaxCalculator/TaxSummary.tsx:26-30 | a tax between 0 and a positive income gives an average rate between 0 and 100 |
| Summary.NetIncome | client/src/components/TaxCalculator/TaxSummary.tsx:59 | the displayed net income exceeds the income iff the tax is negative, and equals it iff the tax is 0 |
| Form.CoerceNonZeroIff | client/src/components/TaxCalculator/Form.tsx:144 | the coerced number is non-zero iff v is a non-zero number, `true`, or text parsing to a non-zero number; every other value becomes 0 |
| Form.CoerceIdempotent | client/src/components/TaxCalculator/Form.tsx:144 | coercing an already coerced value gives the same number |
| Form.ParentalDeduction | client/src/components/TaxCalculator/Form.tsx:126-138 | 0 without children or for a count ≤ 0; 25 000 for a count in (0, 1]; 25 000 + (n − 1) × 15 000 above 1; never negative; 0 iff not (has children and count > 0) |
| Form.ParentalDeductionOfField | client/src/components/TaxCalculator/Form.tsx:126-138 | without children, or with a field that coerces to 0 or less (NaN, undefined), the deduction is 0 |
| Form.ParentalDeductionMonotone | client/src/components/TaxCalculator/Form.tsx:129-135 | the deduction is non-decreasing in the child count |
| Form.AllowanceSum | client/src/components/TaxCalculator/Form.tsx:131-134 | the sum of per-child allowances is non-negative |
| Form.ParentalDeductionIsAllowanceSum | client/src/components/TaxCalculator/Form.tsx:129-135 | for n whole children the deduction is 25 000 for the first plus 15 000 for each further child |
| Form.ThreeChildren | client/src/components/TaxCalculator/Form.tsx:129-135 | three children give 55 000 with the flag set and 0 without it |
| Form.Submit | client/src/components/TaxCalculator/Form.tsx:140-151 | after submit, every income and financial entry is a number, numeric entries are unchanged, entry names are kept, and all other fields pass through |
| Form.SubmitIdempotent | client/src/components/TaxCalculator/Form.tsx:141-151 | submitting the submitted data again changes nothing |
| Form.InputThenSubmit | client/src/components/TaxCalculator/Form.tsx:140-165 | text typed into an income input reaches the submitted data as its parsed number, or 0 when empty or unparsable |
| Calculator.PrepareRequestKeepsValid | client/src/pages/calculator.tsx:29-34 | annualising the salary keeps a valid record valid |
| Calculator.RequestTotalIncome | client/src/pages/calculator.tsx:29-34 | the server's total income for the request is the annualised salary plus the other sources, which are not annualised |
| Calculator.ServerSharesNeverSumTo100 | client/src/components/TaxCalculator/utils.ts:34-43 | if the share formula were applied to the server's breakdown of a valid record, the shares would never sum to 100 |
| Calculator.AverageRatesAgree | client/src/components/TaxCalculator/TaxSummary.tsx:26-30 | the summary's zero-guarded formula, applied to the server's totals, equals the server's formula where that is a number, and is 0 where it is not |
| Calculator.NetPayAboveIncomeBelowBreakEven | server/storage.ts:16-37 | with no (or zero) mortgage interest and income in (0, 109 950 / 0.422), the server's net pay exceeds total income, and so does the summary's net-income formula on the same totals |

## Left out

- React rendering and layout of the form, summary, breakdown cards, iceberg view and page. They are presentation. This includes the fixed employer tax of 70 500 and the "34.0%" text in the iceberg view.
- The query, HTTP request and toast flow of the calculator page, which is I/O. Only the request body is modelled (`Calculator.PrepareRequest`).
- `formatCurrency`, `formatPercentage` and the summary's local formatters. They depend on locale formatting and `toFixed`.
- The i18n configuration, which is library setup.
- IEEE-754 doubles: rounding, NaN and Infinity are not modelled. Amounts are exact reals, and a NaN or Infinity result is `None`.
- JavaScript's `Number(string)` is a parameter (`Form.NumberParser`) because its parsing is not modelled. Coercion of `null` is not modelled; `undefined` is.
- zod internals, error messages and issue order are not modelled. `new Date().getFullYear()` is the parameter `currentYear`.
- Presence and type issues are excluded by construction: every required field exists and every field has its declared type, so `Validate` never reports a missing `numberOfDependents`, `bankAndLoans` or `property`. The form's default values omit exactly these and it renders no input for them. Under zod's usual rule that a missing required key is an issue, every submission of that form fails validation. The model does not show this.
- The form's submit handler runs on the record the schema resolver produced. That resolver normally drops keys the schema does not declare, such as `financial`, so `Object.entries` on it would throw. The model's form data always holds `income` and `financial` groups and does not model that throw.
- The summary component reads the form fields `businessIncome.totalIncome` and `financial.totalTax`, which the user enters, not the server's breakdown. It is not mounted by any page shown here. `calculateTaxPercentages` has no caller shown. The lemmas in `Calculator` compare formulas on equal totals; they do not describe a composition the program performs.
- `primaryResidence` is an optional boolean and the booleans and `location` carry no rule beyond their type, so they have no validity rule in `Schema.Satisfies`.
- Form fields in the `businessIncome`, `deductions`, `financial` and `travelExpenses` groups are read by the form and summary but are not declared by the shared schema. The summary and deduction functions therefore take the scalars they read, and the form's other fields are an untyped path-to-value map. In the `income` group, eight of the nine keys the form defaults and renders (`disabilityPension` through `otherIncome`, client/src/components/TaxCalculator/Form.tsx:57-67 and 314-324) are not declared by the work-income schema either, and the schema's seven optional incomes have no form input, so the form can send the estimator only a salary. The model's `Storage.TotalIncome` still sums all seven.
