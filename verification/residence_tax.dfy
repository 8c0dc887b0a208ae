/**
  Monthly residence tax, assessed on the previous year's income: taxable
  income is clamped at zero, charged at the municipal plus prefectural rate,
  the per-capita levy is added and the total is spread over twelve months.
*/
module ResidenceTax {
  import opened Rounding

  /** Deductions, rates and the per-capita levy for the residence tax. */
  datatype ResidenceParams = ResidenceParams(
    dependents: int,
    employmentIncomeDeduction: real,
    basicDeduction: real,
    dependentDeduction: real,
    municipalRate: real,
    prefecturalRate: real,
    perCapitaTax: real)

  /** Defaults: basic deduction 430,000 (not the income tax's 480,000), 6 % + 4 %, levy 5,000. */
  const DefaultResidence := ResidenceParams(0, 1950000.0, 430000.0, 330000.0, 0.06, 0.04, 5000.0)

  /** Everything subtracted from the previous year's income. */
  function ResidenceDeductions(socialInsurance: real, p: ResidenceParams): real {
    p.employmentIncomeDeduction + p.basicDeduction + p.dependentDeduction * p.dependents as real + socialInsurance
  }

  /** Income after deductions, never below zero. */
  function ResidenceTaxable(income: real, socialInsurance: real, p: ResidenceParams): (t: real)
    ensures 0.0 <= t && income - ResidenceDeductions(socialInsurance, p) <= t
    ensures t == 0.0 || t == income - ResidenceDeductions(socialInsurance, p)
  {
    var remaining := income - p.employmentIncomeDeduction
      - (p.basicDeduction + p.dependentDeduction * p.dependents as real + socialInsurance);
    if remaining >= 0.0 then remaining else 0.0
  }

  /** Annual tax on a taxable amount: the income-based part at the combined rate plus the per-capita levy. */
  function TaxOnTaxable(taxable: real, p: ResidenceParams): real {
    taxable * (p.municipalRate + p.prefecturalRate) + p.perCapitaTax
  }

  function AnnualResidenceTax(income: real, socialInsurance: real, p: ResidenceParams): real {
    TaxOnTaxable(ResidenceTaxable(income, socialInsurance, p), p)
  }

  /** Monthly residence tax: the annual tax over twelve, rounded half to even. */
  function MonthlyResidenceTax(income: real, socialInsurance: real, p: ResidenceParams): (r: int)
    ensures NearestTiesEven(AnnualResidenceTax(income, socialInsurance, p) / 12.0, r)
  {
    RoundHalfEven(AnnualResidenceTax(income, socialInsurance, p) / 12.0)
  }

  /** However far income falls below the deductions, only the per-capita levy is due. */
  lemma ResidenceBelowDeductions(income: real, socialInsurance: real, p: ResidenceParams)
    requires income <= ResidenceDeductions(socialInsurance, p)
    ensures MonthlyResidenceTax(income, socialInsurance, p) == RoundHalfEven(p.perCapitaTax / 12.0)
  {
    assert ResidenceTaxable(income, socialInsurance, p) == 0.0;
    assert TaxOnTaxable(0.0, p) == p.perCapitaTax;
  }

  /** At the defaults that levy comes to 417 yen a month. */
  lemma ResidenceDefaultMinimum(income: real, socialInsurance: real)
    requires income <= ResidenceDeductions(socialInsurance, DefaultResidence)
    ensures MonthlyResidenceTax(income, socialInsurance, DefaultResidence) == 417
  {
    ResidenceBelowDeductions(income, socialInsurance, DefaultResidence);
    RoundHalfEvenUnique(5000.0 / 12.0, 417);
  }

  /** The rounded monthly tax grows with the taxable amount. */
  lemma MonthlyOnTaxableMonotone(t1: real, t2: real, p: ResidenceParams)
    requires t1 <= t2 && 0.0 <= p.municipalRate + p.prefecturalRate
    ensures RoundHalfEven(TaxOnTaxable(t1, p) / 12.0) <= RoundHalfEven(TaxOnTaxable(t2, p) / 12.0)
  {
    ScaleMonotone(t1, t2, p.municipalRate + p.prefecturalRate);
    assert TaxOnTaxable(t1, p) <= TaxOnTaxable(t2, p);
    assert TaxOnTaxable(t1, p) / 12.0 <= TaxOnTaxable(t2, p) / 12.0;
    RoundHalfEvenMonotone(TaxOnTaxable(t1, p) / 12.0, TaxOnTaxable(t2, p) / 12.0);
  }

  /** The tax depends on income and deductions only through the taxable amount, and grows with it. */
  lemma ResidenceMonotoneInTaxable(i1: real, s1: real, i2: real, s2: real, p: ResidenceParams)
    requires 0.0 <= p.municipalRate + p.prefecturalRate
    requires ResidenceTaxable(i1, s1, p) <= ResidenceTaxable(i2, s2, p)
    ensures MonthlyResidenceTax(i1, s1, p) <= MonthlyResidenceTax(i2, s2, p)
  {
    MonthlyOnTaxableMonotone(ResidenceTaxable(i1, s1, p), ResidenceTaxable(i2, s2, p), p);
  }

  /** Higher previous-year income never lowers the tax. */
  lemma ResidenceMonotoneInIncome(i1: real, i2: real, socialInsurance: real, p: ResidenceParams)
    requires i1 <= i2 && 0.0 <= p.municipalRate + p.prefecturalRate
    ensures MonthlyResidenceTax(i1, socialInsurance, p) <= MonthlyResidenceTax(i2, socialInsurance, p)
  {
    ResidenceMonotoneInTaxable(i1, socialInsurance, i2, socialInsurance, p);
  }

  /** More previous-year social insurance never raises the tax. */
  lemma ResidenceAntitoneInSocialInsurance(income: real, s1: real, s2: real, p: ResidenceParams)
    requires s1 <= s2 && 0.0 <= p.municipalRate + p.prefecturalRate
    ensures MonthlyResidenceTax(income, s2, p) <= MonthlyResidenceTax(income, s1, p)
  {
    ResidenceMonotoneInTaxable(income, s2, income, s1, p);
  }

  /** Each extra dependent adds a non-negative deduction. */
  lemma ResidenceDeductionsGrowWithDependents(socialInsurance: real, p: ResidenceParams, extra: nat)
    requires 0.0 <= p.dependentDeduction
    ensures ResidenceDeductions(socialInsurance, p) <= ResidenceDeductions(socialInsurance, p.(dependents := p.dependents + extra))
  {
    ScaleMonotone(p.dependents as real, (p.dependents + extra) as real, p.dependentDeduction);
  }

  /** The tax on a given taxable amount depends only on the rates and the levy. */
  lemma SameRatesSameTax(taxable: real, p: ResidenceParams, q: ResidenceParams)
    requires p.municipalRate == q.municipalRate && p.prefecturalRate == q.prefecturalRate
    requires p.perCapitaTax == q.perCapitaTax
    ensures TaxOnTaxable(taxable, p) == TaxOnTaxable(taxable, q)
  {
  }

  /** More dependents never raise the tax while the per-dependent deduction is non-negative. */
  lemma ResidenceAntitoneInDependents(income: real, socialInsurance: real, p: ResidenceParams, extra: nat)
    requires 0.0 <= p.dependentDeduction && 0.0 <= p.municipalRate + p.prefecturalRate
    ensures var q := p.(dependents := p.dependents + extra);
            MonthlyResidenceTax(income, socialInsurance, q) <= MonthlyResidenceTax(income, socialInsurance, p)
  {
    var q := p.(dependents := p.dependents + extra);
    ResidenceDeductionsGrowWithDependents(socialInsurance, p, extra);
    var tq, tp := ResidenceTaxable(income, socialInsurance, q), ResidenceTaxable(income, socialInsurance, p);
    assert tq <= tp;
    MonthlyOnTaxableMonotone(tq, tp, p);
    SameRatesSameTax(tq, p, q);
  }

  /** With non-negative rates and levy the tax is never negative. */
  lemma ResidenceNonNegative(income: real, socialInsurance: real, p: ResidenceParams)
    requires 0.0 <= p.municipalRate + p.prefecturalRate && 0.0 <= p.perCapitaTax
    ensures 0 <= MonthlyResidenceTax(income, socialInsurance, p)
  {
    MonthlyOnTaxableMonotone(0.0, ResidenceTaxable(income, socialInsurance, p), p);
    assert TaxOnTaxable(0.0, p) == p.perCapitaTax;
    RoundHalfEvenMonotone(0.0, p.perCapitaTax / 12.0);
  }

  /**
    The worked example of 8,000,000 income and 1,263,180 social insurance:
    taxable 4,356,820, annual tax 440,682, and 36,723.5 a month, which rounds
    to the even 36,724.
  */
  lemma ResidenceExample()
    ensures MonthlyResidenceTax(8000000.0, 1263180.0, DefaultResidence) == 36724
  {
    assert ResidenceTaxable(8000000.0, 1263180.0, DefaultResidence) == 4356820.0;
    assert AnnualResidenceTax(8000000.0, 1263180.0, DefaultResidence) == 440682.0;
    RoundHalfEvenUnique(440682.0 / 12.0, 36724);
  }
}
