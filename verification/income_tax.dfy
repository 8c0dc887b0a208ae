/**
  National income tax withheld per month: annualise the salary, subtract the
  deductions, floor to a multiple of 1,000 yen, look up the progressive
  bracket, add the 2.1 % reconstruction surtax and spread over twelve months.
*/
module IncomeTax {
  import opened Rounding

  /** Upper end of a bracket: an inclusive limit, or none for the top bracket. */
  datatype Bound = UpTo(limit: int) | Unbounded

  /** One row of the progressive table: the tax is `taxable * rate - deduction`. */
  datatype Bracket = Bracket(upper: Bound, rate: real, deduction: real)

  /** Limits are inclusive: an amount equal to the limit belongs to the bracket. */
  predicate Covers(b: Bracket, t: int) {
    b.upper.Unbounded? || t <= b.upper.limit
  }

  /** A table whose last bracket is open-ended, so every amount finds a bracket. */
  predicate EndsUnbounded(table: seq<Bracket>) {
    |table| > 0 && table[|table| - 1].upper.Unbounded?
  }

  /** The first bracket, in table order, that covers `t`. */
  function BracketIndex(table: seq<Bracket>, t: int): (i: nat)
    requires EndsUnbounded(table)
    ensures i < |table| && Covers(table[i], t)
    ensures forall k :: 0 <= k < i ==> !Covers(table[k], t)
    decreases |table|
  {
    if Covers(table[0], t) then 0 else 1 + BracketIndex(table[1..], t)
  }

  function BracketTax(b: Bracket, t: int): real {
    t as real * b.rate - b.deduction
  }

  /** Annual tax before the surtax, from the first bracket covering `t`. */
  function BaseTax(table: seq<Bracket>, t: int): real
    requires EndsUnbounded(table)
  {
    BracketTax(table[BracketIndex(table, t)], t)
  }

  /** The 2025 table: limits in yen, rates, and the deduction that makes the schedule continuous. */
  const Brackets2025: seq<Bracket> := [
    Bracket(UpTo(1949000), 0.05, 0.0),
    Bracket(UpTo(3299000), 0.10, 97500.0),
    Bracket(UpTo(6949000), 0.20, 427500.0),
    Bracket(UpTo(8999000), 0.23, 636000.0),
    Bracket(UpTo(17999000), 0.33, 1536000.0),
    Bracket(UpTo(39999000), 0.40, 2796000.0),
    Bracket(Unbounded, 0.45, 4796000.0)
  ]

  /** Income tax plus the 2.1 % reconstruction special income tax. */
  const Surtax: real := 1.021

  /**
    A table that can only be applied to multiples of 1,000 yen without the
    tax ever dropping: finite limits are ascending multiples of 1,000, rates
    are non-negative, and at each limit the next bracket, one step of 1,000
    above, charges at least as much as the current one at the limit.
  */
  ghost predicate Progressive(table: seq<Bracket>) {
    && EndsUnbounded(table)
    && (forall k :: 0 <= k < |table| - 1 ==> table[k].upper.UpTo? && table[k].upper.limit % 1000 == 0)
    && (forall k, m :: 0 <= k < m < |table| - 1 ==> table[k].upper.limit < table[m].upper.limit)
    && (forall k :: 0 <= k < |table| ==> 0.0 <= table[k].rate)
    && (forall k :: 0 <= k < |table| - 1 ==>
          BracketTax(table[k], table[k].upper.limit) <= BracketTax(table[k + 1], table[k].upper.limit + 1000))
  }

  lemma BracketTaxMonotone(b: Bracket, t1: int, t2: int)
    requires 0.0 <= b.rate && t1 <= t2
    ensures BracketTax(b, t1) <= BracketTax(b, t2)
  {
    ScaleMonotone(t1 as real, t2 as real, b.rate);
  }

  /** In a progressive table, a limit belongs to its own bracket and the next multiple of 1,000 to the next. */
  lemma LimitsInclusive(table: seq<Bracket>, k: nat)
    requires Progressive(table) && k < |table| - 1
    ensures BracketIndex(table, table[k].upper.limit) == k
    ensures BracketIndex(table, table[k].upper.limit + 1000) == k + 1
  {
    var u := table[k].upper.limit;
    // every earlier bracket ends strictly below u
    forall m | 0 <= m < k
      ensures !Covers(table[m], u) && !Covers(table[m], u + 1000)
    {
      assert table[m].upper.limit < u;
    }
    assert Covers(table[k], u) && !Covers(table[k], u + 1000);
    if k + 1 < |table| - 1 {
      assert u < table[k + 1].upper.limit;
      assert table[k + 1].upper.limit % 1000 == 0;
    }
    assert Covers(table[k + 1], u + 1000);
  }

  lemma NextMultipleOfThousand(u: int, t: int)
    requires u % 1000 == 0 && t % 1000 == 0 && u < t
    ensures u + 1000 <= t
  {
  }

  /** One instance of the step condition of a progressive table. */
  lemma StepAtLimit(table: seq<Bracket>, k: nat)
    requires Progressive(table) && k < |table| - 1
    ensures table[k].upper.UpTo? && table[k].upper.limit % 1000 == 0
    ensures BracketTax(table[k], table[k].upper.limit) <= BracketTax(table[k + 1], table[k].upper.limit + 1000)
  {
  }

  /**
    From a multiple of 1,000 below the top bracket, climbing to the first
    multiple of 1,000 past its bracket's limit never lowers the tax, and lands
    in the next bracket.
  */
  lemma ClimbToNextBracket(table: seq<Bracket>, t: int)
    requires Progressive(table) && t % 1000 == 0
    requires BracketIndex(table, t) < |table| - 1
    ensures var i := BracketIndex(table, t);
            && table[i].upper.UpTo?
            && BracketIndex(table, table[i].upper.limit + 1000) == i + 1
            && BaseTax(table, t) <= BaseTax(table, table[i].upper.limit + 1000)
  {
    var i := BracketIndex(table, t);
    var u := table[i].upper.limit;
    StepAtLimit(table, i);
    LimitsInclusive(table, i);
    BracketTaxMonotone(table[i], t, u);
  }

  /** A multiple of 1,000 taxed in a later bracket lies past the earlier bracket's limit by at least 1,000. */
  lemma PastEarlierLimit(table: seq<Bracket>, t: int, i: nat)
    requires Progressive(table) && t % 1000 == 0
    requires i < BracketIndex(table, t)
    ensures table[i].upper.UpTo? && table[i].upper.limit + 1000 <= t
  {
    StepAtLimit(table, i);
    assert !Covers(table[i], t);
    NextMultipleOfThousand(table[i].upper.limit, t);
  }

  /** On multiples of 1,000 yen a progressive table never charges less for more income. */
  lemma {:induction false} BaseTaxMonotone(table: seq<Bracket>, t1: int, t2: int)
    requires Progressive(table)
    requires t1 % 1000 == 0 && t2 % 1000 == 0 && t1 <= t2
    ensures BaseTax(table, t1) <= BaseTax(table, t2)
    decreases BracketIndex(table, t2) - BracketIndex(table, t1)
  {
    var i, j := BracketIndex(table, t1), BracketIndex(table, t2);
    if i == j {
      BracketTaxMonotone(table[i], t1, t2);
    } else {
      // climb from t1 into the next bracket, then recurse from there
      assert i < j < |table|;
      ClimbToNextBracket(table, t1);
      PastEarlierLimit(table, t2, i);
      BaseTaxMonotone(table, table[i].upper.limit + 1000, t2);
    }
  }

  /** The 2025 table is progressive. */
  lemma Brackets2025Progressive()
    ensures Progressive(Brackets2025)
  {
    Limits2025Ascending();
    Steps2025NeverDrop();
    assert forall k :: 0 <= k < |Brackets2025| ==> 0.0 <= Brackets2025[k].rate;
  }

  /** The finite 2025 limits are ascending multiples of 1,000. */
  lemma Limits2025Ascending()
    ensures EndsUnbounded(Brackets2025)
    ensures forall k :: 0 <= k < |Brackets2025| - 1 ==>
              Brackets2025[k].upper.UpTo? && Brackets2025[k].upper.limit % 1000 == 0
    ensures forall k, m :: 0 <= k < m < |Brackets2025| - 1 ==>
              Brackets2025[k].upper.limit < Brackets2025[m].upper.limit
  {
    var t := Brackets2025;
    forall k | 0 <= k < |t| - 1
      ensures t[k].upper.UpTo? && t[k].upper.limit % 1000 == 0
    {
    }
    forall k, m | 0 <= k < m < |t| - 1
      ensures t[k].upper.limit < t[m].upper.limit
    {
    }
  }

  /** At no 2025 limit does the step into the next bracket lower the tax. */
  lemma Steps2025NeverDrop()
    ensures forall k :: 0 <= k < |Brackets2025| - 1 ==>
              BracketTax(Brackets2025[k], Brackets2025[k].upper.limit)
                <= BracketTax(Brackets2025[k + 1], Brackets2025[k].upper.limit + 1000)
  {
    forall k | 0 <= k < |Brackets2025| - 1
      ensures BracketTax(Brackets2025[k], Brackets2025[k].upper.limit)
                <= BracketTax(Brackets2025[k + 1], Brackets2025[k].upper.limit + 1000)
    {
      BoundaryStep2025(k);
    }
  }

  /** The tax at each 2025 limit, and one step of 1,000 above it in the next bracket. */
  lemma BoundaryStep2025(k: nat)
    requires k < |Brackets2025| - 1
    ensures var b := Brackets2025[k];
            BracketTax(b, b.upper.limit) <= BracketTax(Brackets2025[k + 1], b.upper.limit + 1000)
  {
    if k == 0 {
      assert BracketTax(Brackets2025[0], 1949000) == 97450.0;
      assert BracketTax(Brackets2025[1], 1950000) == 97500.0;
    } else if k == 1 {
      assert BracketTax(Brackets2025[1], 3299000) == 232400.0;
      assert BracketTax(Brackets2025[2], 3300000) == 232500.0;
    } else if k == 2 {
      assert BracketTax(Brackets2025[2], 6949000) == 962300.0;
      assert BracketTax(Brackets2025[3], 6950000) == 962500.0;
    } else if k == 3 {
      assert BracketTax(Brackets2025[3], 8999000) == 1433770.0;
      assert BracketTax(Brackets2025[4], 9000000) == 1434000.0;
    } else if k == 4 {
      assert BracketTax(Brackets2025[4], 17999000) == 4403670.0;
      assert BracketTax(Brackets2025[5], 18000000) == 4404000.0;
    } else {
      assert BracketTax(Brackets2025[5], 39999000) == 13203600.0;
      assert BracketTax(Brackets2025[6], 40000000) == 13204000.0;
    }
  }

  /** Limits are inclusive: 1,949,000 is taxed at 5 % and 1,950,000 at 10 %, and the tax still rises. */
  lemma Brackets2025Boundary()
    ensures BracketIndex(Brackets2025, 1949000) == 0 && BaseTax(Brackets2025, 1949000) == 97450.0
    ensures BracketIndex(Brackets2025, 1950000) == 1 && BaseTax(Brackets2025, 1950000) == 97500.0
  {
    Brackets2025Progressive();
    LimitsInclusive(Brackets2025, 0);
  }

  /** No bracket of the 2025 table charges more than 45 % of a non-negative taxable income. */
  lemma BaseTaxAtMostTopRate(t: int)
    requires 0 <= t
    ensures BaseTax(Brackets2025, t) <= 0.45 * t as real
  {
    var i := BracketIndex(Brackets2025, t);
    var b := Brackets2025[i];
    assert b.rate <= 0.45 && 0.0 <= b.deduction;
    ScaleMonotone(b.rate, 0.45, t as real);
  }

  // ------------------------------------------------------------ calculator

  /** Monthly insurance figures, annual deduction constants and dependents for the income tax. */
  datatype IncomeTaxParams = IncomeTaxParams(
    dependents: int,
    healthInsurance: real,
    pension: real,
    employmentInsurance: real,
    employmentIncomeDeduction: real,
    basicDeduction: real,
    dependentDeduction: real)

  /** Defaults taken from a sample payslip: no dependents and fixed monthly premiums. */
  const DefaultIncomeTax := IncomeTaxParams(0, 41126.0, 59475.0, 4664.0, 1950000.0, 480000.0, 380000.0)

  /** Employment-income, basic and dependent deductions plus twelve months of insurance. */
  function AnnualDeductions(p: IncomeTaxParams): real {
    p.employmentIncomeDeduction + p.basicDeduction + p.dependentDeduction * p.dependents as real
      + (p.healthInsurance + p.pension + p.employmentInsurance) * 12.0
  }

  /** Annual gross less deductions, floored to a multiple of 1,000 (toward minus infinity). */
  function TaxableIncome(monthlyGross: real, p: IncomeTaxParams): (t: int)
    ensures t % 1000 == 0
    ensures t as real <= monthlyGross * 12.0 - AnnualDeductions(p) < t as real + 1000.0
  {
    FloorToThousand(monthlyGross * 12.0 - AnnualDeductions(p))
  }

  /** One twelfth of the annual tax with surtax, before rounding. */
  function ExactMonthlyTax(monthlyGross: real, p: IncomeTaxParams): real {
    BaseTax(Brackets2025, TaxableIncome(monthlyGross, p)) * Surtax / 12.0
  }

  /** Monthly income tax withheld, rounded half to even; not clamped at zero. */
  function MonthlyIncomeTax(monthlyGross: real, p: IncomeTaxParams): (r: int)
    ensures NearestTiesEven(ExactMonthlyTax(monthlyGross, p), r)
  {
    RoundHalfEven(ExactMonthlyTax(monthlyGross, p))
  }

  /** Deductions enter only through their total, and a larger total never raises the tax. */
  lemma IncomeTaxAntitoneInDeductions(monthlyGross: real, p1: IncomeTaxParams, p2: IncomeTaxParams)
    requires AnnualDeductions(p1) <= AnnualDeductions(p2)
    ensures MonthlyIncomeTax(monthlyGross, p2) <= MonthlyIncomeTax(monthlyGross, p1)
  {
    var t1, t2 := TaxableIncome(monthlyGross, p1), TaxableIncome(monthlyGross, p2);
    FloorToThousandMonotone(monthlyGross * 12.0 - AnnualDeductions(p2), monthlyGross * 12.0 - AnnualDeductions(p1));
    Brackets2025Progressive();
    BaseTaxMonotone(Brackets2025, t2, t1);
    RoundHalfEvenMonotone(ExactMonthlyTax(monthlyGross, p2), ExactMonthlyTax(monthlyGross, p1));
  }

  /** A higher gross salary never lowers the tax. */
  lemma IncomeTaxMonotoneInGross(g1: real, g2: real, p: IncomeTaxParams)
    requires g1 <= g2
    ensures MonthlyIncomeTax(g1, p) <= MonthlyIncomeTax(g2, p)
  {
    var t1, t2 := TaxableIncome(g1, p), TaxableIncome(g2, p);
    FloorToThousandMonotone(g1 * 12.0 - AnnualDeductions(p), g2 * 12.0 - AnnualDeductions(p));
    Brackets2025Progressive();
    BaseTaxMonotone(Brackets2025, t1, t2);
    RoundHalfEvenMonotone(ExactMonthlyTax(g1, p), ExactMonthlyTax(g2, p));
  }

  /** More dependents never raise the tax while the per-dependent deduction is non-negative. */
  lemma MoreDependentsMoreDeductions(p: IncomeTaxParams, extra: nat)
    requires 0.0 <= p.dependentDeduction
    ensures AnnualDeductions(p) <= AnnualDeductions(p.(dependents := p.dependents + extra))
  {
    ScaleMonotone(p.dependents as real, (p.dependents + extra) as real, p.dependentDeduction);
  }

  lemma IncomeTaxMoreDependents(monthlyGross: real, p: IncomeTaxParams, extra: nat)
    requires 0.0 <= p.dependentDeduction
    ensures MonthlyIncomeTax(monthlyGross, p.(dependents := p.dependents + extra)) <= MonthlyIncomeTax(monthlyGross, p)
  {
    MoreDependentsMoreDeductions(p, extra);
    IncomeTaxAntitoneInDeductions(monthlyGross, p, p.(dependents := p.dependents + extra));
  }

  /** Larger monthly insurance premiums never raise the tax. */
  lemma IncomeTaxLargerInsurance(monthlyGross: real, p: IncomeTaxParams, health: real, pension: real, employment: real)
    requires p.healthInsurance <= health && p.pension <= pension && p.employmentInsurance <= employment
    ensures var q := p.(healthInsurance := health, pension := pension, employmentInsurance := employment);
            MonthlyIncomeTax(monthlyGross, q) <= MonthlyIncomeTax(monthlyGross, p)
  {
    var q := p.(healthInsurance := health, pension := pension, employmentInsurance := employment);
    var dep := p.dependentDeduction * p.dependents as real;
    assert AnnualDeductions(p) == p.employmentIncomeDeduction + p.basicDeduction + dep
      + (p.healthInsurance + p.pension + p.employmentInsurance) * 12.0;
    assert AnnualDeductions(q) == p.employmentIncomeDeduction + p.basicDeduction + dep
      + (health + pension + employment) * 12.0;
    IncomeTaxAntitoneInDeductions(monthlyGross, p, q);
  }

  /**
    Nothing clamps the tax: it is negative exactly when the annual gross falls
    short of the deductions, since the shortfall lands in the 5 % bracket.
  */
  lemma IncomeTaxNegativeIff(monthlyGross: real, p: IncomeTaxParams)
    ensures MonthlyIncomeTax(monthlyGross, p) < 0 <==> monthlyGross * 12.0 < AnnualDeductions(p)
  {
    var t := TaxableIncome(monthlyGross, p);
    Brackets2025Progressive();
    if monthlyGross * 12.0 < AnnualDeductions(p) {
      assert t <= -1000;
      assert BracketIndex(Brackets2025, t) == 0;
      assert BaseTax(Brackets2025, t) <= -50.0;
      assert ExactMonthlyTax(monthlyGross, p) <= -50.0 * Surtax / 12.0;
    } else {
      assert 0 <= t;
      assert BaseTax(Brackets2025, 0) == 0.0;
      BaseTaxMonotone(Brackets2025, 0, t);
      assert 0.0 <= ExactMonthlyTax(monthlyGross, p);
      RoundHalfEvenMonotone(0.0, ExactMonthlyTax(monthlyGross, p));
    }
  }

  /**
    A taxable income at or below zero is taken by the first bracket, taxed at
    5 % with no deduction, and gives a monthly tax at or below zero.
  */
  lemma NonPositiveTaxableInFirstBracket(monthlyGross: real, p: IncomeTaxParams)
    requires TaxableIncome(monthlyGross, p) <= 0
    ensures BracketIndex(Brackets2025, TaxableIncome(monthlyGross, p)) == 0
    ensures BaseTax(Brackets2025, TaxableIncome(monthlyGross, p)) == TaxableIncome(monthlyGross, p) as real * 0.05
    ensures MonthlyIncomeTax(monthlyGross, p) <= 0
  {
    var t := TaxableIncome(monthlyGross, p);
    assert BaseTax(Brackets2025, t) == t as real * 0.05;
    assert ExactMonthlyTax(monthlyGross, p) <= 0.0;
    RoundHalfEvenMonotone(ExactMonthlyTax(monthlyGross, p), 0.0);
    RoundHalfEvenUnique(0.0, 0);
  }

  /** The default figures applied to a 847,938 yen salary: taxable 6,482,000, 20 % bracket. */
  lemma IncomeTaxExample()
    ensures TaxableIncome(847938.0, DefaultIncomeTax) == 6482000
    ensures MonthlyIncomeTax(847938.0, DefaultIncomeTax) == 73929
  {
    assert AnnualDeductions(DefaultIncomeTax) == 3693180.0;
    assert TaxableIncome(847938.0, DefaultIncomeTax) == 6482000;
    assert BracketIndex(Brackets2025, 6482000) == 2;
    assert BaseTax(Brackets2025, 6482000) == 868900.0;
    assert ExactMonthlyTax(847938.0, DefaultIncomeTax) == 887146.9 / 12.0;
    RoundHalfEvenUnique(887146.9 / 12.0, 73929);
  }
}
