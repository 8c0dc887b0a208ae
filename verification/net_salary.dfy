/**
  The net-salary aggregator: runs the five calculators on one monthly gross
  salary with their default parameters, sums the deductions and derives the
  net salary and the retention rate.
*/
module NetSalary {
  import opened Outcomes
  import opened Rounding
  import opened SocialInsurance
  import opened IncomeTax
  import opened ResidenceTax

  /** The five deductions, one per calculator. */
  datatype Breakdown = Breakdown(
    healthInsurance: int,
    pension: int,
    employmentInsurance: int,
    incomeTax: int,
    residentTax: int)

  function TotalDeductions(b: Breakdown): int {
    b.healthInsurance + b.pension + b.employmentInsurance + b.incomeTax + b.residentTax
  }

  predicate AllNonNegative(b: Breakdown) {
    0 <= b.healthInsurance && 0 <= b.pension && 0 <= b.employmentInsurance && 0 <= b.incomeTax && 0 <= b.residentTax
  }

  datatype NetSalaryResult = NetSalaryResult(gross: real, deductions: Breakdown, netSalary: real, retentionRate: real)

  /**
    The previous year's income the residence tax is assessed on. An absent
    figure and an explicit zero are both replaced by twelve months of the
    current gross.
  */
  function PreviousYearIncome(monthlyGross: real, previous: Option<real>): (income: real)
    ensures previous.None? ==> income == monthlyGross * 12.0
    ensures previous.Some? && previous.value == 0.0 ==> income == monthlyGross * 12.0
    ensures previous.Some? && previous.value != 0.0 ==> income == previous.value
  {
    match previous
    case None => monthlyGross * 12.0
    case Some(v) => if v == 0.0 then monthlyGross * 12.0 else v
  }

  /**
    The breakdown for a non-negative gross. The income tax is charged with its
    own default insurance figures, and the residence tax receives this month's
    pension premium as the previous year's social insurance.
  */
  function Deductions(monthlyGross: real, previous: Option<real>): (b: Breakdown)
    requires 0.0 <= monthlyGross
    ensures HealthInsurance(monthlyGross, DefaultHealth) == Ok(b.healthInsurance)
    ensures PensionInsurance(monthlyGross, DefaultPension) == Ok(b.pension)
    ensures EmploymentInsurance(monthlyGross, DefaultEmployment) == Ok(b.employmentInsurance)
    ensures b.incomeTax == MonthlyIncomeTax(monthlyGross, DefaultIncomeTax)
    ensures b.residentTax
         == MonthlyResidenceTax(PreviousYearIncome(monthlyGross, previous), b.pension as real, DefaultResidence)
  {
    var pension := PensionInsurance(monthlyGross, DefaultPension).value;
    Breakdown(
      HealthInsurance(monthlyGross, DefaultHealth).value,
      pension,
      EmploymentInsurance(monthlyGross, DefaultEmployment).value,
      MonthlyIncomeTax(monthlyGross, DefaultIncomeTax),
      MonthlyResidenceTax(PreviousYearIncome(monthlyGross, previous), pension as real, DefaultResidence))
  }

  /**
    Net salary and retention rate. A negative gross is rejected by the first
    calculator; a zero gross gets through the calculators and fails on the
    division for the retention rate.
  */
  function CalculateNetSalary(monthlyGross: real, previous: Option<real>): (r: Result<NetSalaryResult>)
    ensures monthlyGross < 0.0 ==> r == Err(NegativeSalary)
    ensures monthlyGross == 0.0 ==> r == Err(DivisionByZero)
    ensures 0.0 < monthlyGross ==> r.Ok?
    ensures r.Ok? ==> r.value.gross == monthlyGross && r.value.deductions == Deductions(monthlyGross, previous)
    ensures r.Ok? ==> r.value.netSalary + TotalDeductions(r.value.deductions) as real == monthlyGross
    ensures r.Ok? ==> r.value.retentionRate == r.value.netSalary / monthlyGross
  {
    if monthlyGross < 0.0 then Err(NegativeSalary)
    else
      var breakdown := Deductions(monthlyGross, previous);
      var net := monthlyGross - TotalDeductions(breakdown) as real;
      if monthlyGross == 0.0 then Err(DivisionByZero)
      else Ok(NetSalaryResult(monthlyGross, breakdown, net, net / monthlyGross))
  }

  /** An explicit zero previous-year income behaves exactly like an absent one. */
  lemma ZeroPreviousIncomeIsAbsent(monthlyGross: real)
    ensures CalculateNetSalary(monthlyGross, Some(0.0)) == CalculateNetSalary(monthlyGross, None)
  {
    if 0.0 <= monthlyGross {
      assert Deductions(monthlyGross, Some(0.0)) == Deductions(monthlyGross, None);
    }
  }

  /** When no deduction is negative, the net never exceeds the gross. */
  lemma RetentionAtMostOne(monthlyGross: real, previous: Option<real>)
    requires 0.0 < monthlyGross
    requires AllNonNegative(Deductions(monthlyGross, previous))
    ensures CalculateNetSalary(monthlyGross, previous).value.netSalary <= monthlyGross
    ensures CalculateNetSalary(monthlyGross, previous).value.retentionRate <= 1.0
  {
    var r := CalculateNetSalary(monthlyGross, previous).value;
    assert r.netSalary <= monthlyGross;
    RatioAtMostOne(r.netSalary, monthlyGross);
  }

  lemma RatioAtMostOne(x: real, y: real)
    requires 0.0 < y && x <= y
    ensures x / y <= 1.0
  {
  }

  lemma RatioNonNegative(x: real, y: real)
    requires 0.0 < y && 0.0 <= x
    ensures 0.0 <= x / y
  {
  }

  /**
    For a realistic salary — at least 307,765 a month, so that twelve months
    cover the income tax's 3,693,180 of default deductions — and a previous
    year no richer than twelve months of it, the retention rate lies in [0, 1].
  */
  lemma RetentionWithinUnitInterval(monthlyGross: real, previous: Option<real>)
    requires 307765.0 <= monthlyGross
    requires PreviousYearIncome(monthlyGross, previous) <= monthlyGross * 12.0
    ensures AllNonNegative(Deductions(monthlyGross, previous))
    ensures 0.0 <= CalculateNetSalary(monthlyGross, previous).value.netSalary <= monthlyGross
    ensures 0.0 <= CalculateNetSalary(monthlyGross, previous).value.retentionRate <= 1.0
  {
    var g := monthlyGross;
    var b := Deductions(g, previous);
    DeductionsBounded(g, previous);
    RetentionAtMostOne(g, previous);
    var r := CalculateNetSalary(g, previous).value;
    assert 0.0 <= r.netSalary;
    RatioNonNegative(r.netSalary, g);
  }

  /** Each deduction is non-negative and at most a fixed share of the gross plus rounding. */
  lemma DeductionsBounded(monthlyGross: real, previous: Option<real>)
    requires 307765.0 <= monthlyGross
    requires PreviousYearIncome(monthlyGross, previous) <= monthlyGross * 12.0
    ensures var b := Deductions(monthlyGross, previous);
            && AllNonNegative(b)
            && TotalDeductions(b) as real <= 0.71 * monthlyGross + 420.0
  {
    var g := monthlyGross;
    var b := Deductions(g, previous);
    HealthBounded(g);
    PensionBounded(g);
    EmploymentBounded(g);
    IncomeTaxNegativeIff(g, DefaultIncomeTax);
    assert AnnualDeductions(DefaultIncomeTax) == 3693180.0;
    IncomeTaxBounded(g);
    ResidenceNonNegative(PreviousYearIncome(g, previous), b.pension as real, DefaultResidence);
    ResidenceBounded(g, PreviousYearIncome(g, previous), b.pension as real);
  }

  /** Health insurance takes at most 9.67 % / 2 of the salary, plus rounding. */
  lemma HealthBounded(g: real)
    requires 0.0 <= g
    ensures 0 <= HealthInsurance(g, DefaultHealth).value
    ensures HealthInsurance(g, DefaultHealth).value as real <= 0.04835 * g + 0.5
  {
    HealthNonNegative(g, DefaultHealth);
    assert HealthExactPremium(g, DefaultHealth) <= 0.04835 * g;
  }

  /** Pension insurance takes at most 18.3 % / 2 of the salary, plus rounding. */
  lemma PensionBounded(g: real)
    requires 0.0 <= g
    ensures 0 <= PensionInsurance(g, DefaultPension).value
    ensures PensionInsurance(g, DefaultPension).value as real <= 0.0915 * g + 0.5
  {
    PensionNonNegative(g, DefaultPension);
    assert PensionExactPremium(g, DefaultPension) <= 0.0915 * g;
  }

  /** Employment insurance takes 0.55 % of the salary, plus rounding. */
  lemma EmploymentBounded(g: real)
    requires 0.0 <= g
    ensures 0 <= EmploymentInsurance(g, DefaultEmployment).value
    ensures EmploymentInsurance(g, DefaultEmployment).value as real <= 0.0055 * g + 0.5
  {
    EmploymentNonNegative(g, DefaultEmployment);
    assert EmploymentExactPremium(g, DefaultEmployment) == 0.0055 * g;
  }

  lemma IncomeTaxBounded(monthlyGross: real)
    requires 307765.0 <= monthlyGross
    ensures MonthlyIncomeTax(monthlyGross, DefaultIncomeTax) as real <= 0.45945 * monthlyGross + 0.5
  {
    var t := TaxableIncome(monthlyGross, DefaultIncomeTax);
    assert AnnualDeductions(DefaultIncomeTax) == 3693180.0;
    assert 0 <= t && t as real <= monthlyGross * 12.0;
    BaseTaxAtMostTopRate(t);
    assert BaseTax(Brackets2025, t) <= 5.4 * monthlyGross;
    assert ExactMonthlyTax(monthlyGross, DefaultIncomeTax) <= 0.45945 * monthlyGross;
  }

  lemma ResidenceBounded(monthlyGross: real, income: real, socialInsurance: real)
    requires 0.0 <= monthlyGross && income <= monthlyGross * 12.0 && 0.0 <= socialInsurance
    ensures MonthlyResidenceTax(income, socialInsurance, DefaultResidence) as real <= 0.1 * monthlyGross + 418.0
  {
    var t := ResidenceTaxable(income, socialInsurance, DefaultResidence);
    assert t <= monthlyGross * 12.0;
    assert AnnualResidenceTax(income, socialInsurance, DefaultResidence) == t * 0.1 + 5000.0;
  }

  /** The worked example: 847,938 a month with no previous-year figure. */
  lemma NetSalaryExample()
    ensures CalculateNetSalary(847938.0, None)
         == Ok(NetSalaryResult(847938.0, Breakdown(40998, 59475, 4664, 73929, 64882), 603990.0, 603990.0 / 847938.0))
  {
    HealthDocumentedExample();
    PensionDocumentedExamples();
    EmploymentDocumentedExamples();
    IncomeTaxExample();
    assert ResidenceTaxable(10175256.0, 59475.0, DefaultResidence) == 7735781.0;
    assert AnnualResidenceTax(10175256.0, 59475.0, DefaultResidence) == 778578.1;
    RoundHalfEvenUnique(778578.1 / 12.0, 64882);
  }

  /**
    The income tax line ignores the premiums computed beside it: at 500,000 a
    month the premiums are 24,175, 45,750 and 2,750, yet the tax is charged
    on the default 41,126, 59,475 and 4,664, giving 11,325 instead of 14,651.
  */
  lemma IncomeTaxIgnoresComputedPremiums()
    ensures Deductions(500000.0, None).incomeTax == 11325
    ensures MonthlyIncomeTax(500000.0, DefaultIncomeTax.(healthInsurance := 24175.0, pension := 45750.0, employmentInsurance := 2750.0))
         == 14651
  {
    var actual := DefaultIncomeTax.(healthInsurance := 24175.0, pension := 45750.0, employmentInsurance := 2750.0);
    assert actual == IncomeTaxParams(0, 24175.0, 45750.0, 2750.0, 1950000.0, 480000.0, 380000.0);
    assert AnnualDeductions(DefaultIncomeTax) == 3693180.0;
    assert TaxableIncome(500000.0, DefaultIncomeTax) == 2306000;
    assert BracketIndex(Brackets2025, 2306000) == 1;
    assert BaseTax(Brackets2025, 2306000) == 133100.0;
    RoundHalfEvenUnique(133100.0 * 1.021 / 12.0, 11325);
    assert AnnualDeductions(actual) == 3302100.0;
    assert TaxableIncome(500000.0, actual) == 2697000;
    assert BracketIndex(Brackets2025, 2697000) == 1;
    assert BaseTax(Brackets2025, 2697000) == 172200.0;
    RoundHalfEvenUnique(172200.0 * 1.021 / 12.0, 14651);
  }

  /**
    Because the income tax is not clamped, a very low salary keeps more than
    it earns: a gross of 1 yen carries an income tax of -15,715 and a net of
    15,299.
  */
  lemma LowSalaryRetentionAboveOne()
    ensures CalculateNetSalary(1.0, None).value.deductions.incomeTax == -15715
    ensures CalculateNetSalary(1.0, None).value.retentionRate == 15299.0
  {
    assert HealthInsurance(1.0, DefaultHealth) == Ok(0);
    assert PensionExactPremium(1.0, DefaultPension) == 0.0915;
    RoundHalfEvenUnique(0.0915, 0);
    assert EmploymentExactPremium(1.0, DefaultEmployment) == 0.0055;
    RoundUpIfOverHalfUnique(0.0055, 0);
    assert AnnualDeductions(DefaultIncomeTax) == 3693180.0;
    assert TaxableIncome(1.0, DefaultIncomeTax) == -3694000;
    assert BaseTax(Brackets2025, -3694000) == -184700.0;
    RoundHalfEvenUnique(-184700.0 * 1.021 / 12.0, -15715);
    ResidenceDefaultMinimum(12.0, 0.0);
  }
}
