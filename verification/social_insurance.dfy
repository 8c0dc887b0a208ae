/**
  The three social-insurance premium calculators: health insurance (salary
  floor and cap), pension insurance (cap only) and employment insurance
  (traditional "up only above one half" rounding). Each rejects a negative
  salary and otherwise returns a whole-yen employee premium.
*/
module SocialInsurance {
  import opened Outcomes
  import opened Rounding

  /** Rate, employee share and the band of insured salary for health insurance. */
  datatype HealthParams = HealthParams(rate: real, employeeShare: real, lowerCap: real, upperCap: real)

  /** 2025 Ibaraki defaults: 9.67 %, half paid by the employee, insured from 58,000 up to 1,390,000. */
  const DefaultHealth := HealthParams(0.0967, 0.5, 58000.0, 1390000.0)

  /** Rate, employee share and cap of insured salary for pension insurance. */
  datatype PensionParams = PensionParams(rate: real, employeeShare: real, cap: real)

  /** 2025 defaults: 18.3 %, half paid by the employee, insured up to 650,000. */
  const DefaultPension := PensionParams(0.183, 0.5, 650000.0)

  /** Employment-insurance rate and the choice of traditional rounding. */
  datatype EmploymentParams = EmploymentParams(rate: real, roundHalfDown: bool)

  /** 2025 general-business rate of 0.55 %, traditional rounding. */
  const DefaultEmployment := EmploymentParams(0.0055, true)

  // ---------------------------------------------------------------- health

  /**
    The salary health insurance is charged on: nothing below the floor,
    otherwise the salary limited to the cap.
  */
  function HealthInsuredBase(salary: real, p: HealthParams): (base: real)
    ensures salary < p.lowerCap ==> base == 0.0
    ensures p.lowerCap <= salary ==> base <= salary && base <= p.upperCap
    ensures p.lowerCap <= salary ==> base == salary || base == p.upperCap
  {
    if salary >= p.lowerCap then (if salary <= p.upperCap then salary else p.upperCap) else 0.0
  }

  /** The employee's share of the premium on the insured base, before rounding. */
  function HealthExactPremium(salary: real, p: HealthParams): real {
    HealthInsuredBase(salary, p) * p.rate * p.employeeShare
  }

  /** Employee's monthly health-insurance premium, rounded half to even. */
  function HealthInsurance(salary: real, p: HealthParams): (r: Result<int>)
    ensures r.Err? <==> salary < 0.0
    ensures r.Err? ==> r.error == NegativeSalary
    ensures r.Ok? ==> NearestTiesEven(HealthExactPremium(salary, p), r.value)
  {
    if salary < 0.0 then Err(NegativeSalary)
    else Ok(RoundHalfEven(HealthExactPremium(salary, p)))
  }

  /** Below the floor no premium is due. */
  lemma HealthBelowFloorIsFree(salary: real, p: HealthParams)
    requires 0.0 <= salary < p.lowerCap
    ensures HealthInsurance(salary, p) == Ok(0)
  {
    assert HealthExactPremium(salary, p) == 0.0;
  }

  /** The floor is inclusive: a salary equal to it is insured in full. */
  lemma HealthFloorInclusive(p: HealthParams)
    requires 0.0 <= p.lowerCap <= p.upperCap
    ensures HealthInsuredBase(p.lowerCap, p) == p.lowerCap
    ensures HealthInsurance(p.lowerCap, p) == Ok(RoundHalfEven(p.lowerCap * p.rate * p.employeeShare))
  {
    assert HealthInsuredBase(p.lowerCap, p) == p.lowerCap;
    assert HealthExactPremium(p.lowerCap, p) == p.lowerCap * p.rate * p.employeeShare;
  }

  /** Every salary at or above both the floor and the cap pays the same premium. */
  lemma HealthCapSaturates(s1: real, s2: real, p: HealthParams)
    requires p.lowerCap <= p.upperCap
    requires 0.0 <= p.upperCap <= s1 && p.upperCap <= s2
    ensures HealthInsuredBase(s1, p) == p.upperCap
    ensures HealthInsurance(s1, p) == HealthInsurance(s2, p)
  {
    assert HealthInsuredBase(s1, p) == HealthInsuredBase(s2, p) == p.upperCap;
    assert HealthExactPremium(s1, p) == HealthExactPremium(s2, p);
  }

  /** With non-negative rate, share and cap, the premium is never negative. */
  lemma HealthNonNegative(salary: real, p: HealthParams)
    requires 0.0 <= salary
    requires 0.0 <= p.rate && 0.0 <= p.employeeShare && 0.0 <= p.upperCap
    ensures HealthInsurance(salary, p).Ok? && HealthInsurance(salary, p).value >= 0
  {
    ScaleMonotone2(0.0, HealthInsuredBase(salary, p), p.rate, p.employeeShare);
    assert 0.0 <= HealthExactPremium(salary, p);
  }

  /** A higher salary never lowers the health premium. */
  lemma HealthMonotone(s1: real, s2: real, p: HealthParams)
    requires 0.0 <= s1 <= s2
    requires 0.0 <= p.rate && 0.0 <= p.employeeShare && 0.0 <= p.upperCap
    ensures HealthInsurance(s1, p).value <= HealthInsurance(s2, p).value
  {
    ScaleMonotone2(HealthInsuredBase(s1, p), HealthInsuredBase(s2, p), p.rate, p.employeeShare);
    assert HealthExactPremium(s1, p) <= HealthExactPremium(s2, p);
    RoundHalfEvenMonotone(HealthExactPremium(s1, p), HealthExactPremium(s2, p));
  }

  lemma HealthDocumentedExample()
    ensures HealthInsurance(847938.0, DefaultHealth) == Ok(40998)
  {
    assert HealthExactPremium(847938.0, DefaultHealth) == 40997.8023;
    RoundHalfEvenUnique(40997.8023, 40998);
  }

  // --------------------------------------------------------------- pension

  /** The salary pension insurance is charged on: the salary limited to the cap, with no floor. */
  function PensionInsuredBase(salary: real, p: PensionParams): (base: real)
    ensures base <= salary && base <= p.cap
    ensures base == salary || base == p.cap
  {
    if salary <= p.cap then salary else p.cap
  }

  /** The employee's share of the premium on the insured base, before rounding. */
  function PensionExactPremium(salary: real, p: PensionParams): real {
    PensionInsuredBase(salary, p) * p.rate * p.employeeShare
  }

  /** Employee's monthly pension premium, rounded half to even. */
  function PensionInsurance(salary: real, p: PensionParams): (r: Result<int>)
    ensures r.Err? <==> salary < 0.0
    ensures r.Err? ==> r.error == NegativeSalary
    ensures r.Ok? ==> NearestTiesEven(PensionExactPremium(salary, p), r.value)
  {
    if salary < 0.0 then Err(NegativeSalary)
    else Ok(RoundHalfEven(PensionExactPremium(salary, p)))
  }

  /** Every salary at or above the cap pays the same premium. */
  lemma PensionCapSaturates(s1: real, s2: real, p: PensionParams)
    requires 0.0 <= p.cap <= s1 && p.cap <= s2
    ensures PensionInsuredBase(s1, p) == p.cap
    ensures PensionInsurance(s1, p) == PensionInsurance(s2, p)
  {
    assert PensionInsuredBase(s1, p) == PensionInsuredBase(s2, p) == p.cap;
    assert PensionExactPremium(s1, p) == PensionExactPremium(s2, p);
  }

  /** At the default parameters the saturated premium is 59,475. */
  lemma PensionDefaultCeiling(salary: real)
    requires 650000.0 <= salary
    ensures PensionInsurance(salary, DefaultPension) == Ok(59475)
  {
    assert PensionExactPremium(salary, DefaultPension) == 59475.0;
    RoundHalfEvenUnique(59475.0, 59475);
  }

  lemma PensionNonNegative(salary: real, p: PensionParams)
    requires 0.0 <= salary
    requires 0.0 <= p.rate && 0.0 <= p.employeeShare && 0.0 <= p.cap
    ensures PensionInsurance(salary, p).Ok? && PensionInsurance(salary, p).value >= 0
  {
    ScaleMonotone2(0.0, PensionInsuredBase(salary, p), p.rate, p.employeeShare);
    assert 0.0 <= PensionExactPremium(salary, p);
  }

  /** A higher salary never lowers the pension premium. */
  lemma PensionMonotone(s1: real, s2: real, p: PensionParams)
    requires 0.0 <= s1 <= s2
    requires 0.0 <= p.rate && 0.0 <= p.employeeShare
    ensures PensionInsurance(s1, p).value <= PensionInsurance(s2, p).value
  {
    ScaleMonotone2(PensionInsuredBase(s1, p), PensionInsuredBase(s2, p), p.rate, p.employeeShare);
    assert PensionExactPremium(s1, p) <= PensionExactPremium(s2, p);
    RoundHalfEvenMonotone(PensionExactPremium(s1, p), PensionExactPremium(s2, p));
  }

  lemma PensionDocumentedExamples()
    ensures PensionInsurance(847938.0, DefaultPension) == Ok(59475)
    ensures PensionInsurance(500000.0, DefaultPension) == Ok(45750)
  {
    PensionDefaultCeiling(847938.0);
    assert PensionExactPremium(500000.0, DefaultPension) == 45750.0;
    RoundHalfEvenUnique(45750.0, 45750);
  }

  // ------------------------------------------------------------ employment

  /** The premium before rounding: salary times rate, with no floor or cap. */
  function EmploymentExactPremium(salary: real, p: EmploymentParams): real {
    salary * p.rate
  }

  /**
    Employee's monthly employment-insurance premium: traditional rounding by
    default, half-to-even rounding when the flag is off.
  */
  function EmploymentInsurance(salary: real, p: EmploymentParams): (r: Result<int>)
    ensures r.Err? <==> salary < 0.0
    ensures r.Err? ==> r.error == NegativeSalary
    ensures r.Ok? && p.roundHalfDown && 0.0 <= p.rate ==>
              EmploymentExactPremium(salary, p) - 0.5 <= r.value as real < EmploymentExactPremium(salary, p) + 0.5
    ensures r.Ok? && !p.roundHalfDown ==> NearestTiesEven(EmploymentExactPremium(salary, p), r.value)
  {
    if salary < 0.0 then Err(NegativeSalary)
    else
      var raw := EmploymentExactPremium(salary, p);
      assert 0.0 <= p.rate ==> 0.0 <= raw by {
        if 0.0 <= p.rate { ScaleMonotone(0.0, salary, p.rate); }
      }
      if p.roundHalfDown then Ok(RoundUpIfOverHalf(raw)) else Ok(RoundHalfEven(raw))
  }

  /**
    In traditional mode the premium is the floor of the raw premium plus one
    exactly when its fractional part exceeds one half.
  */
  lemma EmploymentTraditionalRule(salary: real, p: EmploymentParams)
    requires 0.0 <= salary && 0.0 <= p.rate && p.roundHalfDown
    ensures var raw := EmploymentExactPremium(salary, p);
            var v := EmploymentInsurance(salary, p).value;
            && (v == raw.Floor + 1 <==> raw - raw.Floor as real > 0.5)
            && (v == raw.Floor <==> raw - raw.Floor as real <= 0.5)
  {
    ScaleMonotone(0.0, salary, p.rate);
    assert 0.0 <= EmploymentExactPremium(salary, p);
  }

  /** A raw premium ending in exactly one half is rounded down, one just above is rounded up. */
  lemma EmploymentHalfRoundsDown()
    ensures EmploymentInsurance(100.0, EmploymentParams(0.005, true)) == Ok(0)
    ensures EmploymentInsurance(100.0, EmploymentParams(0.00500001, true)) == Ok(1)
    ensures EmploymentInsurance(300.0, EmploymentParams(0.005, false)) == Ok(2)
  {
    assert EmploymentExactPremium(100.0, EmploymentParams(0.005, true)) == 0.5;
    assert EmploymentExactPremium(100.0, EmploymentParams(0.00500001, true)) == 0.500001;
    assert EmploymentExactPremium(300.0, EmploymentParams(0.005, false)) == 1.5;
    RoundHalfEvenUnique(1.5, 2);
  }

  /** The raw premium grows with the salary when the rate is non-negative. */
  lemma EmploymentExactMonotone(s1: real, s2: real, p: EmploymentParams)
    requires s1 <= s2 && 0.0 <= p.rate
    ensures EmploymentExactPremium(s1, p) <= EmploymentExactPremium(s2, p)
  {
    ScaleMonotone(s1, s2, p.rate);
  }

  /** A higher salary never lowers the employment premium, in either rounding mode. */
  lemma EmploymentMonotone(s1: real, s2: real, p: EmploymentParams)
    requires 0.0 <= s1 <= s2 && 0.0 <= p.rate
    ensures EmploymentInsurance(s1, p).value <= EmploymentInsurance(s2, p).value
  {
    EmploymentExactMonotone(s1, s2, p);
    RoundUpIfOverHalfMonotone(EmploymentExactPremium(s1, p), EmploymentExactPremium(s2, p));
    RoundHalfEvenMonotone(EmploymentExactPremium(s1, p), EmploymentExactPremium(s2, p));
  }

  lemma EmploymentNonNegative(salary: real, p: EmploymentParams)
    requires 0.0 <= salary && 0.0 <= p.rate
    ensures EmploymentInsurance(salary, p).Ok? && EmploymentInsurance(salary, p).value >= 0
  {
    ScaleMonotone(0.0, salary, p.rate);
    assert 0.0 <= EmploymentExactPremium(salary, p);
  }

  lemma EmploymentDocumentedExamples()
    ensures EmploymentInsurance(847938.0, DefaultEmployment) == Ok(4664)
    ensures EmploymentInsurance(500000.0, DefaultEmployment) == Ok(2750)
  {
    assert EmploymentExactPremium(847938.0, DefaultEmployment) == 4663.659;
    assert EmploymentExactPremium(500000.0, DefaultEmployment) == 2750.0;
    RoundUpIfOverHalfUnique(4663.659, 4664);
    RoundUpIfOverHalfUnique(2750.0, 2750);
  }
}
