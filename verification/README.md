# Japanese payroll deductions, modelled in Dafny

This project models a small Python payroll calculator for Japanese monthly
salaries. Five pure calculators turn a gross monthly salary into deductions:
- health insurance (a salary floor and cap, employee half of 9.67 %);
- pension insurance (a cap only, employee half of 18.3 %);
- employment insurance (0.55 %, traditional "up only above one half" rounding);
- national income tax (annualised, floored to 1,000 yen, progressive 2025 brackets, 2.1 % reconstruction surtax);
- residence tax (zero-clamped taxable income, 6 % + 4 %, a 5,000 yen per-capita levy).

An aggregator chains them into a breakdown, a net salary and a retention rate.

The Python uses floats. The model uses exact `real` arithmetic: every rate is
written as an exact decimal (`0.0967` is 967/10000 in Dafny). Each rounding rule
of the source is its own function in `rounding.dfy`:
- `RoundHalfEven` is Python's `round`;
- `Trunc` is `int()`;
- `RoundUpIfOverHalf` is the employment-insurance rule;
- `FloorToThousand` is `x // 1000 * 1000`.

A negative salary makes each of the three insurance calculators raise. That is
modelled as `Err(NegativeSalary)` in the `Result` type of `outcomes.dfy`. The two
tax calculators accept any input, so they return plain values. The aggregator's
division by a zero gross is `Err(DivisionByZero)`.

Files and modules:
- `outcomes.dfy` (`Outcomes`): `Result`, `Option`, `CalcError`.
- `rounding.dfy` (`Rounding`): the rounding rules, their characterisations and monotonicity.
- `social_insurance.dfy` (`SocialInsurance`): the three premium calculators.
- `income_tax.dfy` (`IncomeTax`): the bracket table, bracket lookup, and the income-tax calculator.
- `residence_tax.dfy` (`ResidenceTax`): the residence-tax calculator.
- `net_salary.dfy` (`NetSalary`): the aggregator.

Behaviour worth knowing:
- Python's `round` on a float rounds half to even. So a health or pension premium that ends in exactly half a yen goes to the even yen (src/calculator/social_insurance.py:39, 83).
- A zero gross raises `ZeroDivisionError` at the retention-rate division (src/calculator/deductions.py:280). It is modelled as `Err(DivisionByZero)`.
- `calculate_net_salary` takes no dependents argument. Both taxes are computed with zero dependents.
- The residence-tax docstring example (8,000,000 and 1,263,180 giving 28,800) does not match the formula. Exactly, the formula gives 440,682 / 12 = 36,723.5, which rounds to 36,724. `ResidenceTax.ResidenceExample` proves 36,724.
- For a non-negative raw premium, the traditional employment rule (src/calculator/social_insurance.py:119-123) keeps the integer `r` with `raw - 1/2 <= r < raw + 1/2`: the nearest yen, with ties going down. A raw premium of exactly 0.5 gives 0.

## Model

| member | source | states |
|---|---|---|
| Rounding.RoundHalfEven | src/calculator/social_insurance.py:39 | the result is an integer within 1/2 of x, and the even one when x is exactly halfway (Python's banker's rounding) |
| Rounding.RoundHalfEvenUnique | src/calculator/social_insurance.py:39 | any integer within 1/2 of x that is even at a tie equals RoundHalfEven(x), so the characterisation is complete |
| Rounding.RoundHalfEvenMonotone | src/calculator/social_insurance.py:83 | x <= y implies RoundHalfEven(x) <= RoundHalfEven(y) |
| Rounding.Trunc | src/calculator/social_insurance.py:121 | int() truncates toward zero: the floor for x >= 0, and for x < 0 the integer r with r - 1 < x <= r |
| Rounding.RoundUpIfOverHalf | src/calculator/social_insurance.py:119-123 | for x >= 0: x - 1/2 <= r < x + 1/2, and r = floor(x) + 1 exactly when the fraction exceeds 1/2 (else floor(x)); below zero it is the truncation |
| Rounding.RoundUpIfOverHalfUnique | src/calculator/social_insurance.py:119-123 | for x >= 0 the only integer in [x - 1/2, x + 1/2) is RoundUpIfOverHalf(x) |
| Rounding.RoundUpIfOverHalfMonotone | src/calculator/social_insurance.py:117-123 | the traditional rounding is non-decreasing on all reals |
| Rounding.FloorToThousand | src/calculator/income_tax.py:47-48 | the result is a multiple of 1,000 with r <= x < r + 1,000 (floor semantics, also for negative x) |
| Rounding.FloorToThousandMonotone | src/calculator/income_tax.py:48 | flooring to 1,000 is non-decreasing |
| SocialInsurance.HealthInsuredBase | src/calculator/social_insurance.py:35 | 0 below the floor; from the floor up it is at most the salary and the cap and equal to one of them (the min) |
| SocialInsurance.HealthInsurance | src/calculator/social_insurance.py:1-39 | fails exactly for a negative salary; otherwise the nearest-ties-even integer to base x rate x share |
| SocialInsurance.HealthBelowFloorIsFree | src/calculator/social_insurance.py:35 | a salary in [0, lower_cap) pays 0 |
| SocialInsurance.HealthFloorInclusive | src/calculator/social_insurance.py:35 | a salary equal to lower_cap is insured at its full value |
| SocialInsurance.HealthCapSaturates | src/calculator/social_insurance.py:35-39 | every salary at or above upper_cap has base upper_cap and pays the same premium |
| SocialInsurance.HealthNonNegative | src/calculator/social_insurance.py:31-39 | a non-negative salary with non-negative rate, share and cap gets a non-negative premium |
| SocialInsurance.HealthMonotone | src/calculator/social_insurance.py:35-39 | with non-negative rate, share and cap, a higher salary never lowers the premium |
| SocialInsurance.HealthDocumentedExample | src/calculator/social_insurance.py:27-29 | health(847,938) = 40,998 at the defaults |
| SocialInsurance.PensionInsuredBase | src/calculator/social_insurance.py:77 | the base is at most the salary and the cap and equal to one of them, with no floor |
| SocialInsurance.PensionInsurance | src/calculator/social_insurance.py:42-83 | fails exactly for a negative salary; otherwise the nearest-ties-even integer to base x rate x share |
| SocialInsurance.PensionCapSaturates | src/calculator/social_insurance.py:77-83 | every salary at or above the cap pays the same premium |
| SocialInsurance.PensionDefaultCeiling | src/calculator/social_insurance.py:42-83 | at the defaults every salary >= 650,000 pays 59,475 |
| SocialInsurance.PensionNonNegative | src/calculator/social_insurance.py:73-83 | a non-negative salary with non-negative parameters gets a non-negative premium |
| SocialInsurance.PensionMonotone | src/calculator/social_insurance.py:77-83 | with non-negative rate and share, a higher salary never lowers the premium |
| SocialInsurance.PensionDocumentedExamples | src/calculator/social_insurance.py:67-71 | pension(847,938) = 59,475 and pension(500,000) = 45,750 |
| SocialInsurance.EmploymentInsurance | src/calculator/social_insurance.py:85-125 | fails exactly for a negative salary; in traditional mode the premium r keeps salary x rate - 1/2 <= r < salary x rate + 1/2; otherwise it is the nearest-ties-even integer |
| SocialInsurance.EmploymentTraditionalRule | src/calculator/social_insurance.py:119-123 | in traditional mode the premium is floor(raw) + 1 exactly when raw's fraction exceeds 1/2, and floor(raw) otherwise |
| SocialInsurance.EmploymentHalfRoundsDown | src/calculator/social_insurance.py:117-125 | a raw 0.5 rounds down to 0, a raw 0.500001 rounds up to 1; with the flag off a raw 1.5 goes to the even 2 |
| SocialInsurance.EmploymentMonotone | src/calculator/social_insurance.py:117-125 | with a non-negative rate, a higher salary never lowers the premium in either mode |
| SocialInsurance.EmploymentNonNegative | src/calculator/social_insurance.py:114-125 | a non-negative salary and rate give a non-negative premium |
| SocialInsurance.EmploymentDocumentedExamples | src/calculator/social_insurance.py:108-112 | employment(847,938) = 4,664 and employment(500,000) = 2,750 |
| IncomeTax.BracketIndex | src/calculator/income_tax.py:60-63 | for a table ending in an unbounded bracket, the result is a bracket covering t (t <= its upper bound) and no earlier bracket covers t |
| IncomeTax.LimitsInclusive | src/calculator/income_tax.py:60-61 | in a progressive table, an upper bound is taxed in its own bracket and the next multiple of 1,000 in the following one |
| IncomeTax.BaseTaxMonotone | src/calculator/income_tax.py:51-63 | for a progressive table, on multiples of 1,000 a larger taxable income never gives a smaller base tax |
| IncomeTax.Brackets2025Progressive | src/calculator/income_tax.py:51-59 | the 2025 table ends unbounded, has ascending limits that are multiples of 1,000 and non-negative rates, and never drops at a boundary |
| IncomeTax.Brackets2025Boundary | src/calculator/income_tax.py:51-63 | 1,949,000 uses the 5 % bracket (97,450), 1,950,000 the 10 % bracket (97,500) |
| IncomeTax.BaseTaxAtMostTopRate | src/calculator/income_tax.py:51-63 | for taxable income t >= 0 the 2025 base tax is at most 45 % of t |
| IncomeTax.TaxableIncome | src/calculator/income_tax.py:34-48 | a multiple of 1,000 at most 12 x gross - deductions and more than that minus 1,000; deductions = employment-income + basic + dependent x dependents + 12 x (health + pension + employment) |
| IncomeTax.MonthlyIncomeTax | src/calculator/income_tax.py:2-71 | the nearest-ties-even integer to base tax x 1.021 / 12 |
| IncomeTax.IncomeTaxAntitoneInDeductions | src/calculator/income_tax.py:37-71 | a larger annual deduction total never raises the monthly tax |
| IncomeTax.IncomeTaxMonotoneInGross | src/calculator/income_tax.py:34-71 | a higher monthly gross never lowers the monthly tax |
| IncomeTax.IncomeTaxMoreDependents | src/calculator/income_tax.py:39-44 | with a non-negative per-dependent deduction, more dependents never raise the tax |
| IncomeTax.IncomeTaxLargerInsurance | src/calculator/income_tax.py:38-44 | larger monthly insurance figures never raise the tax |
| IncomeTax.IncomeTaxNegativeIff | src/calculator/income_tax.py:47-69 | the tax is negative exactly when 12 x gross is below the deductions (nothing clamps it) |
| IncomeTax.NonPositiveTaxableInFirstBracket | src/calculator/income_tax.py:52-69 | a taxable income <= 0 falls in the first bracket, its base tax is exactly 5 % of it, and the monthly tax is <= 0 |
| IncomeTax.IncomeTaxExample | src/calculator/income_tax.py:2-71 | at 847,938 with the defaults the taxable income is 6,482,000 and the monthly tax 73,929 |
| ResidenceTax.ResidenceTaxable | src/calculator/residence_tax.py:37-45 | never negative, at least income minus deductions, and equal to 0 or to that difference (the max) |
| ResidenceTax.MonthlyResidenceTax | src/calculator/residence_tax.py:1-54 | the nearest-ties-even integer to (taxable x (municipal + prefectural) + per-capita) / 12 |
| ResidenceTax.ResidenceBelowDeductions | src/calculator/residence_tax.py:45-54 | income at or below the deductions gives round(per_capita / 12), however far below |
| ResidenceTax.ResidenceDefaultMinimum | src/calculator/residence_tax.py:1-54 | at the defaults that minimum is 417 |
| ResidenceTax.MonthlyOnTaxableMonotone | src/calculator/residence_tax.py:48-54 | with a non-negative combined rate, the rounded monthly tax grows with the taxable amount |
| ResidenceTax.ResidenceMonotoneInTaxable | src/calculator/residence_tax.py:45-54 | two inputs with ordered taxable amounts give ordered taxes |
| ResidenceTax.ResidenceMonotoneInIncome | src/calculator/residence_tax.py:38-54 | higher previous-year income never lowers the tax |
| ResidenceTax.ResidenceAntitoneInSocialInsurance | src/calculator/residence_tax.py:39-54 | more previous-year social insurance never raises the tax |
| ResidenceTax.ResidenceAntitoneInDependents | src/calculator/residence_tax.py:39-54 | more dependents never raise the tax while the per-dependent deduction is non-negative |
| ResidenceTax.ResidenceNonNegative | src/calculator/residence_tax.py:45-54 | non-negative rates and levy give a non-negative tax |
| ResidenceTax.ResidenceExample | src/calculator/residence_tax.py:37-54 | (8,000,000, 1,263,180) gives 36,724 at the defaults |
| NetSalary.PreviousYearIncome | src/calculator/deductions.py:262-263 | an absent figure and an explicit 0 are both replaced by 12 x gross; any other value is kept |
| NetSalary.Deductions | src/calculator/deductions.py:265-271 | each of the five entries is its calculator at the default parameters; income tax uses its own default insurance figures; residence tax gets this month's pension premium as previous-year social insurance |
| NetSalary.CalculateNetSalary | src/calculator/deductions.py:257-281 | a negative gross fails with NegativeSalary, a zero gross with DivisionByZero, a positive gross succeeds; net + total deductions = gross, and retention = net / gross |
| NetSalary.ZeroPreviousIncomeIsAbsent | src/calculator/deductions.py:262-263 | passing 0 as previous-year income gives the same result as passing nothing |
| NetSalary.RetentionAtMostOne | src/calculator/deductions.py:273-280 | if all five deductions are non-negative, net <= gross and retention <= 1 |
| NetSalary.RetentionWithinUnitInterval | src/calculator/deductions.py:257-281 | for gross >= 307,765 and previous-year income <= 12 x gross, all deductions are non-negative and 0 <= retention <= 1 |
| NetSalary.DeductionsBounded | src/calculator/deductions.py:265-274 | under the same conditions the deductions total at most 0.71 x gross + 420 |
| NetSalary.NetSalaryExample | src/calculator/deductions.py:257-281 | 847,938 with no previous-year figure gives the breakdown 40,998 / 59,475 / 4,664 / 73,929 / 64,882 and net 603,990 |
| NetSalary.IncomeTaxIgnoresComputedPremiums | src/calculator/deductions.py:269 | at 500,000 the breakdown's income tax is 11,325; charging the premiums actually computed would give 14,651 |
| NetSalary.LowSalaryRetentionAboveOne | src/calculator/deductions.py:269-280 | a gross of 1 yen has income tax -15,715 and retention 15,299 (the unclamped tax lifts retention far above 1) |

## Left out

- The `__main__` demo in src/calculator/deductions.py:284-288 is console printing only.
- src/calculator/models.py is not part of this model. Its schema classes are validated by a library that cannot be modelled, and `calculate_net_salary` returns a plain dict, so the non-negativity validator never runs.
- Lines 1-253 of src/calculator/deductions.py repeat the three calculator modules word for word. Each calculator is modelled once.
- Floating-point effects are not modelled: the model computes exactly. A float result can differ from the exact one wherever float error moves a value across one of these thresholds:
  - a .5 tie in `round` (src/calculator/social_insurance.py:39, 83, 125; src/calculator/income_tax.py:69; src/calculator/residence_tax.py:54);
  - the one-half test of the traditional employment rule (src/calculator/social_insurance.py:123);
  - a multiple of 1,000 in the income-tax floor (src/calculator/income_tax.py:48). Float error in `monthly_gross * 12` or in the deduction sum can put the difference on the other side of a multiple of 1,000. The taxable income then differs by 1,000, and the monthly tax by 1,000 x rate x 1.021 / 12: about 4 yen in the 5 % bracket and up to about 38 yen in the 45 % bracket. This needs a non-integer gross, insurance figure or deduction constant (src/calculator/income_tax.py:5-10, added at 38-44).
- Python returns a float from the health and pension calculators (40998.0). The model returns the same value as an integer.
- Rates, caps and dependent counts are not validated by the source. A lower cap above the upper cap, negative rates or negative dependents are accepted as they are. The lemmas that need sensible values state them as `requires`.
- SocialInsurance.EmploymentInsurance: the contract describes traditional rounding only for a non-negative rate. The function itself models a negative rate exactly, as truncation toward zero.
- NetSalary.RetentionWithinUnitInterval: states the [0, 1] bound only from a gross of 307,765 and a previous-year income of at most 12 x gross. Below that, the income tax turns negative and the retention rate can exceed 1 (see NetSalary.LowSalaryRetentionAboveOne). Above that, a large previous-year income can make the residence tax exceed the gross.
