/**
  The development tax penalty: the present value of a tax on improvements
  over a number of years, as an annuity of the annual tax, compared with the
  improvement total and converted into an equivalent number of housing units.
 */
module DevelopmentTax {
  import opened Table

  datatype TaxParams = TaxParams(
    improvementCol: string,
    millageRate: real,
    years: int,
    discountRate: real,
    costPerSqft: real,
    unitSizeSqft: real)

  function DefaultParams(): TaxParams {
    TaxParams("improvement_value", 0.012, 30, 0.05, 150.0, 1200.0)
  }

  /** The column the housing-unit estimate reads, whatever the parameters say. */
  const ResidentialCol: string := "improvement_value"

  /** Assumed housing units per property with improvements. */
  const UnitsPerProperty: real := 1.5

  function Pow(b: real, n: nat): real {
    if n == 0 then 1.0 else b * Pow(b, n - 1)
  }

  lemma {:induction false} PowNonZero(b: real, n: nat)
    requires b != 0.0
    ensures Pow(b, n) != 0.0
  {
    if n > 0 {
      PowNonZero(b, n - 1);
    }
  }

  lemma {:induction false} PowAtLeastOne(b: real, n: nat)
    requires b >= 1.0
    ensures Pow(b, n) >= 1.0
  {
    if n > 0 {
      PowAtLeastOne(b, n - 1);
      assert b * Pow(b, n - 1) - Pow(b, n - 1) == (b - 1.0) * Pow(b, n - 1);
    }
  }

  /** `b ** e` for an integer exponent; a negative power of 0 is an error in
      the source, so it is excluded. */
  function PowInt(b: real, e: int): real
    requires e < 0 ==> b != 0.0
  {
    if e >= 0 then Pow(b, e) else PowNonZero(b, -e); 1.0 / Pow(b, -e)
  }

  /** The discount rate and horizon for which the annuity factor is defined. */
  predicate CanDiscount(r: real, years: int) {
    r == 0.0 || years <= 0 || 1.0 + r != 0.0
  }

  /** Present value of `years` payments of `annual`: `annual * years` without
      discounting, `annual * (1 - (1 + r) ** -years) / r` otherwise. */
  function Npv(annual: real, r: real, years: int): (v: real)
    requires CanDiscount(r, years)
    ensures r == 0.0 ==> v == annual * (years as real)
    ensures r != 0.0 ==> v * r == annual * (1.0 - PowInt(1.0 + r, -years))
    ensures annual == 0.0 ==> v == 0.0
  {
    if r == 0.0 then annual * (years as real)
    else annual * ((1.0 - PowInt(1.0 + r, -years)) / r)
  }

  /** The reference definition: each payment `t = 1 .. n` discounted by `(1 + r) ** t`. */
  function DiscountedSum(annual: real, r: real, n: nat): real
    requires 1.0 + r != 0.0
  {
    if n == 0 then 0.0
    else PowNonZero(1.0 + r, n); DiscountedSum(annual, r, n - 1) + annual / Pow(1.0 + r, n)
  }

  lemma CancelNonZero(x: real, y: real, p: real)
    requires p != 0.0 && x * p == y * p
    ensures x == y
  {
    assert (x - y) * p == 0.0;
  }

  /** One step of the closed form: adding the payment discounted by
      `q = (1 + r) * p` moves the closed form from `p` to `q`. */
  lemma ClosedFormStep(annual: real, r: real, prev: real, p: real, q: real)
    requires p != 0.0 && q == (1.0 + r) * p && q != 0.0
    requires prev * r == annual * (1.0 - 1.0 / p)
    ensures (prev + annual / q) * r == annual * (1.0 - 1.0 / q)
  {
    var u := 1.0 / p;
    var v := 1.0 / q;
    assert (1.0 + r) * v == u by {
      assert v * q == 1.0 && u * p == 1.0;
      assert ((1.0 + r) * v) * p == v * q;
      CancelNonZero((1.0 + r) * v, u, p);
    }
    assert annual / q == annual * v;
    calc {
      (prev + annual * v) * r;
      prev * r + annual * (v * r);
      annual * (1.0 - u) + annual * (v * r);
      annual * (1.0 - v);
    }
  }

  /** One unfolding of the discounted sum and of the power it divides by. */
  lemma DiscountedSumUnfold(annual: real, r: real, n: nat)
    requires 1.0 + r != 0.0 && n > 0
    ensures Pow(1.0 + r, n - 1) != 0.0 && Pow(1.0 + r, n) != 0.0
    ensures Pow(1.0 + r, n) == (1.0 + r) * Pow(1.0 + r, n - 1)
    ensures DiscountedSum(annual, r, n) == DiscountedSum(annual, r, n - 1) + annual / Pow(1.0 + r, n)
  {
    PowNonZero(1.0 + r, n - 1);
    PowNonZero(1.0 + r, n);
  }

  /** The closed form of the discounted sum, multiplied out by `r`. */
  lemma {:induction false} DiscountedSumClosed(annual: real, r: real, n: nat)
    requires 1.0 + r != 0.0
    ensures Pow(1.0 + r, n) != 0.0 &&
            DiscountedSum(annual, r, n) * r == annual * (1.0 - 1.0 / Pow(1.0 + r, n))
  {
    if n > 0 {
      DiscountedSumClosed(annual, r, n - 1);
      DiscountedSumUnfold(annual, r, n);
      ClosedFormStep(annual, r, DiscountedSum(annual, r, n - 1), Pow(1.0 + r, n - 1), Pow(1.0 + r, n));
    } else {
      assert Pow(1.0 + r, 0) == 1.0;
    }
  }

  lemma {:induction false} DiscountedSumUndiscounted(annual: real, n: nat)
    ensures DiscountedSum(annual, 0.0, n) == annual * (n as real)
  {
    if n > 0 {
      DiscountedSumUndiscounted(annual, n - 1);
      PowAtLeastOne(1.0, n);
      assert Pow(1.0, n) == 1.0 by {
        PowOfOne(n);
      }
      assert annual * (n as real) == annual * ((n - 1) as real) + annual;
    }
  }

  lemma {:induction false} PowOfOne(n: nat)
    ensures Pow(1.0, n) == 1.0
  {
    if n > 0 {
      PowOfOne(n - 1);
    }
  }

  /** The annuity formula is the sum of the discounted payments. */
  lemma {:induction false} NpvIsDiscountedSum(annual: real, r: real, years: nat)
    requires 1.0 + r != 0.0
    ensures Npv(annual, r, years) == DiscountedSum(annual, r, years)
  {
    if r == 0.0 {
      DiscountedSumUndiscounted(annual, years);
    } else {
      var b := 1.0 + r;
      PowNonZero(b, years);
      var w := 1.0 / Pow(b, years);
      assert PowInt(b, -(years as int)) == w by {
        if years == 0 {
          assert Pow(b, 0) == 1.0;
        }
      }
      var npv := Npv(annual, r, years);
      assert npv == annual * ((1.0 - w) / r);
      assert npv * r == annual * (1.0 - w) by {
        assert ((1.0 - w) / r) * r == 1.0 - w;
      }
      DiscountedSumClosed(annual, r, years);
      CancelNonZero(npv, DiscountedSum(annual, r, years), r);
    }
  }

  /** With a non-negative discount rate each payment is worth at most its
      face value today and never less than 0. */
  lemma {:induction false} DiscountedSumBounded(annual: real, r: real, n: nat)
    requires r >= 0.0 && annual >= 0.0
    ensures 0.0 <= DiscountedSum(annual, r, n) <= annual * (n as real)
  {
    if n > 0 {
      DiscountedSumBounded(annual, r, n - 1);
      var q := Pow(1.0 + r, n);
      PowAtLeastOne(1.0 + r, n);
      var x := annual / q;
      assert x * q == annual;
      assert x >= 0.0;
      assert x <= annual by {
        assert x * q - x == x * (q - 1.0);
      }
      assert annual * (n as real) == annual * ((n - 1) as real) + annual;
    }
  }

  /** The present value of the tax never exceeds the undiscounted total, and
      is never negative, when the rate and the tax are not negative. */
  lemma {:induction false} NpvBounded(annual: real, r: real, years: nat)
    requires r >= 0.0 && annual >= 0.0
    ensures 0.0 <= Npv(annual, r, years) <= annual * (years as real)
  {
    NpvIsDiscountedSum(annual, r, years);
    DiscountedSumBounded(annual, r, years);
  }

  /** A quotient; `None` stands for the infinity or NaN of a zero divisor. */
  function Quotient(n: real, d: real): (r: Option<real>)
    ensures r.Some? <==> d != 0.0
    ensures r.Some? ==> r.value * d == n
  {
    if d == 0.0 then None else Some(n / d)
  }

  /** `n / d * 100`; `None` stands for the infinity or NaN of a zero divisor. */
  function Percentage(n: real, d: real): (r: Option<real>)
    ensures r.Some? <==> d != 0.0
    ensures r.Some? ==> r.value * d == n * 100.0
  {
    if d == 0.0 then None else Some(n / d * 100.0)
  }

  /** No cell of the column holds text (the sum and the comparison would fail). */
  predicate NoText(rows: seq<Row>, c: string) {
    forall i :: 0 <= i < |rows| ==> !Get(rows[i], c).Text?
  }

  /** The properties with improvements: a number above 0 in the residential
      column (a missing value compares false). */
  function ResidentialMask(rows: seq<Row>): (m: seq<bool>)
    ensures |m| == |rows|
    ensures forall i :: 0 <= i < |rows| ==> (m[i] <==> ToNumber(Get(rows[i], ResidentialCol)) > 0.0)
  {
    seq(|rows|, i requires 0 <= i < |rows| => Get(rows[i], ResidentialCol).Num? && Get(rows[i], ResidentialCol).x > 0.0)
  }

  datatype TaxReport = TaxReport(
    millageRatePct: real,
    years: int,
    discountRatePct: real,
    costPerSqft: real,
    unitSizeSqft: real,
    totalImprovement: real,
    annualTax: real,
    npv: real,
    npvPctOfConstruction: Option<real>,
    unitCost: real,
    lostUnits: Option<real>,
    currentUnits: real,
    unitsLostPct: Option<real>)

  /** The penalty analysis. The improvement column and the residential
      column must exist and hold no text, and the annuity factor must be
      defined. Missing improvement values are skipped by the sum. */
  function CalculateDevelopmentTaxPenalty(f: Frame, p: TaxParams): (r: TaxReport)
    requires p.improvementCol in f.columns && NoText(f.rows, p.improvementCol)
    requires ResidentialCol in f.columns && NoText(f.rows, ResidentialCol)
    requires CanDiscount(p.discountRate, p.years)
    ensures r.millageRatePct == p.millageRate * 100.0 && r.years == p.years &&
            r.discountRatePct == p.discountRate * 100.0 &&
            r.costPerSqft == p.costPerSqft && r.unitSizeSqft == p.unitSizeSqft
    ensures r.totalImprovement == Sum(NumericColumn(f.rows, p.improvementCol))
    ensures r.annualTax == r.totalImprovement * p.millageRate
    ensures r.npv == Npv(r.annualTax, p.discountRate, p.years)
    ensures r.unitCost == p.costPerSqft * p.unitSizeSqft
    ensures r.npvPctOfConstruction.Some? <==> r.totalImprovement != 0.0
    ensures r.npvPctOfConstruction.Some? ==> r.npvPctOfConstruction.value * r.totalImprovement == r.npv * 100.0
    ensures r.lostUnits.Some? <==> r.unitCost != 0.0
    ensures r.lostUnits.Some? ==> r.lostUnits.value * r.unitCost == r.npv
    ensures r.currentUnits == UnitsPerProperty * (Count(ResidentialMask(f.rows)) as real)
    ensures r.unitsLostPct.Some? <==> r.lostUnits.Some? && r.currentUnits != 0.0
    ensures r.unitsLostPct.Some? ==> r.unitsLostPct.value * r.currentUnits == r.lostUnits.value * 100.0
  {
    var total := Sum(NumericColumn(f.rows, p.improvementCol));
    var annual := total * p.millageRate;
    var npv := Npv(annual, p.discountRate, p.years);
    var unitCost := p.costPerSqft * p.unitSizeSqft;
    var lost := Quotient(npv, unitCost);
    var current := (Count(ResidentialMask(f.rows)) as real) * UnitsPerProperty;
    TaxReport(
      p.millageRate * 100.0, p.years, p.discountRate * 100.0, p.costPerSqft, p.unitSizeSqft,
      total, annual, npv,
      Percentage(npv, total),
      unitCost, lost, current,
      if lost.Some? then Percentage(lost.value, current) else None)
  }

  /** With the default parameters the present value is the sum of 30
      payments discounted at 5%, and it is at most 30 years of tax. */
  lemma {:induction false} DefaultPenaltyNpv(f: Frame)
    requires "improvement_value" in f.columns && NoText(f.rows, "improvement_value")
    requires forall i :: 0 <= i < |f.rows| ==> ToNumber(Get(f.rows[i], "improvement_value")) >= 0.0
    ensures var r := CalculateDevelopmentTaxPenalty(f, DefaultParams());
            r.npv == DiscountedSum(r.annualTax, 0.05, 30) &&
            0.0 <= r.npv <= r.annualTax * 30.0
  {
    var p := DefaultParams();
    var r := CalculateDevelopmentTaxPenalty(f, p);
    var total := Sum(NumericColumn(f.rows, p.improvementCol));
    SumNonNegative(NumericColumn(f.rows, p.improvementCol));
    assert r.annualTax == total * 0.012 && r.annualTax >= 0.0;
    NpvIsDiscountedSum(r.annualTax, 0.05, 30);
    NpvBounded(r.annualTax, 0.05, 30);
  }
}
