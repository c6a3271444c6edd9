/** Deferred taxes under ASC 740: temporary differences between book and tax
    basis, in cents, turned into gross deferred tax liabilities and assets,
    a valuation allowance, the net position, reversal buckets by year and a
    per-difference mapping. */
module DeferredTax {
  import opened Money
  import opened Periods

  /** A temporary difference: book basis less tax basis, in cents. A
      positive amount is taxable in the future, a negative one deductible. */
  datatype TempDiff = TempDiff(period: string, amount: int, reversalYear: int)

  datatype TaxType = DTL | DTA

  datatype MappingEntry = MappingEntry(period: string, tempDiff: int, deferredTax: int, kind: TaxType)

  datatype DeferredTaxResult = DeferredTaxResult(
    statutoryRate: real, grossDtl: int, grossDta: int, valuationAllowance: int,
    netDeferredTax: int, reversalBuckets: map<int, int>, mapping: seq<MappingEntry>)

  /** `max(0.0, amount)` */
  function Taxable(amount: int): nat
  {
    if amount > 0 then amount else 0
  }

  /** `max(0.0, -amount)` */
  function Deductible(amount: int): nat
  {
    if amount < 0 then -amount else 0
  }

  /** Gross deferred tax liabilities: the positive differences times the
      rate, added in input order. */
  function Dtl(ds: seq<TempDiff>, rate: real): (r: real)
    ensures rate >= 0.0 ==> r >= 0.0
  {
    if ds == [] then 0.0 else Dtl(ds[..|ds| - 1], rate) + Taxable(ds[|ds| - 1].amount) as real * rate
  }

  /** Gross deferred tax assets: the magnitudes of the negative differences
      times the rate, added in input order. */
  function Dta(ds: seq<TempDiff>, rate: real): (r: real)
    ensures rate >= 0.0 ==> r >= 0.0
  {
    if ds == [] then 0.0 else Dta(ds[..|ds| - 1], rate) + Deductible(ds[|ds| - 1].amount) as real * rate
  }

  function Amounts(ds: seq<TempDiff>): (r: seq<int>)
    ensures |r| == |ds| && forall i :: 0 <= i < |ds| ==> r[i] == ds[i].amount
  {
    seq(|ds|, i requires 0 <= i < |ds| => ds[i].amount)
  }

  /** Liabilities less assets is the rate times the net temporary
      difference: each difference lands on exactly one side. */
  lemma DtlLessDta(ds: seq<TempDiff>, rate: real)
    ensures Dtl(ds, rate) - Dta(ds, rate) == Sum(Amounts(ds)) as real * rate
  {
    DtlScaled(ds, rate);
    DtaScaled(ds, rate);
    NetSides(ds);
    Subtract(TaxableSum(ds), DeductibleSum(ds), rate);
  }

  /** The positive differences, added up. */
  function TaxableSum(ds: seq<TempDiff>): int
  {
    if ds == [] then 0 else TaxableSum(ds[..|ds| - 1]) + Taxable(ds[|ds| - 1].amount)
  }

  /** The magnitudes of the negative differences, added up. */
  function DeductibleSum(ds: seq<TempDiff>): int
  {
    if ds == [] then 0 else DeductibleSum(ds[..|ds| - 1]) + Deductible(ds[|ds| - 1].amount)
  }

  lemma {:induction false} DtlScaled(ds: seq<TempDiff>, rate: real)
    ensures Dtl(ds, rate) == TaxableSum(ds) as real * rate
  {
    if ds != [] {
      var n := |ds| - 1;
      DtlScaled(ds[..n], rate);
      Distribute(TaxableSum(ds[..n]), Taxable(ds[n].amount), rate);
    }
  }

  lemma {:induction false} DtaScaled(ds: seq<TempDiff>, rate: real)
    ensures Dta(ds, rate) == DeductibleSum(ds) as real * rate
  {
    if ds != [] {
      var n := |ds| - 1;
      DtaScaled(ds[..n], rate);
      Distribute(DeductibleSum(ds[..n]), Deductible(ds[n].amount), rate);
    }
  }

  /** Each difference lands on exactly one side. */
  lemma {:induction false} NetSides(ds: seq<TempDiff>)
    ensures TaxableSum(ds) - DeductibleSum(ds) == Sum(Amounts(ds))
  {
    if ds != [] {
      var n := |ds| - 1;
      NetSides(ds[..n]);
      assert Amounts(ds)[..n] == Amounts(ds[..n]);
    }
  }

  lemma Distribute(x: int, y: int, rate: real)
    ensures x as real * rate + y as real * rate == (x + y) as real * rate
  {
  }

  lemma Subtract(x: int, y: int, rate: real)
    ensures x as real * rate - y as real * rate == (x - y) as real * rate
  {
  }

  /** A difference with its sign flipped. */
  function Flip(d: TempDiff): TempDiff
  {
    TempDiff(d.period, -d.amount, d.reversalYear)
  }

  /** The assets of a set of differences are the liabilities of the same
      differences with the opposite sign. */
  lemma {:induction false} DtaIsFlippedDtl(ds: seq<TempDiff>, rate: real)
    ensures Dta(ds, rate) == Dtl(seq(|ds|, i requires 0 <= i < |ds| => Flip(ds[i])), rate)
  {
    if ds != [] {
      var n := |ds| - 1;
      var fs := seq(|ds|, i requires 0 <= i < |ds| => Flip(ds[i]));
      DtaIsFlippedDtl(ds[..n], rate);
      assert fs[..n] == seq(n, i requires 0 <= i < n => Flip(ds[..n][i]));
    }
  }

  /** Rounding keeps the order of its arguments. */
  lemma RoundMonotone(x: real, y: real)
    requires x <= y
    ensures RoundHalfEven(x) <= RoundHalfEven(y)
  {
    if x < y {
      assert RoundHalfEven(x) as real <= x + 0.5 && y - 0.5 <= RoundHalfEven(y) as real;
    }
  }

  /** An entry of `mapping`: the difference, its deferred tax rounded to the
      cent, and DTL exactly when the difference is positive (zero is DTA). */
  function Entry(d: TempDiff, rate: real): (e: MappingEntry)
    ensures e.period == d.period && e.tempDiff == d.amount
    ensures e.kind == DTL <==> d.amount > 0
    ensures rate >= 0.0 && e.kind == DTL ==> e.deferredTax >= 0
    ensures rate >= 0.0 && e.kind == DTA ==> e.deferredTax <= 0
  {
    var tax := d.amount as real * rate;
    if d.amount > 0 then MappingEntry(d.period, d.amount, RoundHalfEven(tax), DTL)
    else
      assert rate >= 0.0 ==> tax <= 0.0 by {
        if rate >= 0.0 {
          assert tax == -((-d.amount) as real * rate);
        }
      }
      MappingEntry(d.period, d.amount, RoundHalfEven(tax), DTA)
  }

  /** `mapping`: one entry per difference, in input order. */
  function Mapping(ds: seq<TempDiff>, rate: real): (r: seq<MappingEntry>)
    ensures |r| == |ds| && forall i :: 0 <= i < |ds| ==> r[i] == Entry(ds[i], rate)
  {
    seq(|ds|, i requires 0 <= i < |ds| => Entry(ds[i], rate))
  }

  /** The buckets after the first differences, each folded in by
      `by_year[y] = round(by_year.get(y, 0.0) + amount, 2)`. */
  function Buckets(ds: seq<TempDiff>): map<int, int>
  {
    if ds == [] then map[]
    else
      var m := Buckets(ds[..|ds| - 1]);
      var d := ds[|ds| - 1];
      m[d.reversalYear := RoundHalfEven((Get(m, d.reversalYear) + d.amount) as real)]
  }

  /** The total of the differences that reverse in `year`. */
  function YearTotal(ds: seq<TempDiff>, year: int): int
  {
    if ds == [] then 0
    else YearTotal(ds[..|ds| - 1], year) + (if ds[|ds| - 1].reversalYear == year then ds[|ds| - 1].amount else 0)
  }

  /** There is a bucket for each reversal year and no other, and it holds the
      total of the differences reversing that year: whole cents need no
      rounding. */
  lemma {:induction false} BucketsAreYearTotals(ds: seq<TempDiff>)
    ensures forall y :: y in Buckets(ds) <==> exists i :: 0 <= i < |ds| && ds[i].reversalYear == y
    ensures forall y :: Get(Buckets(ds), y) == YearTotal(ds, y)
  {
    if ds != [] {
      var n := |ds| - 1;
      var d := ds[n];
      BucketsAreYearTotals(ds[..n]);
      RoundWhole(Get(Buckets(ds[..n]), d.reversalYear) + d.amount);
      forall y ensures y in Buckets(ds) <==> exists i :: 0 <= i < |ds| && ds[i].reversalYear == y {
        if y in Buckets(ds[..n]) {
          var i :| 0 <= i < n && ds[..n][i].reversalYear == y;
          assert ds[i].reversalYear == y;
        }
        if exists i :: 0 <= i < |ds| && ds[i].reversalYear == y {
          var i :| 0 <= i < |ds| && ds[i].reversalYear == y;
          if i < n {
            assert ds[..n][i].reversalYear == y;
          }
        }
      }
    }
  }

  /** The loop that fills `reversal_buckets`. */
  method ReversalBuckets(ds: seq<TempDiff>) returns (byYear: map<int, int>)
    ensures byYear == Buckets(ds)
  {
    byYear := map[];
    var i := 0;
    while i < |ds|
      invariant 0 <= i <= |ds|
      invariant byYear == Buckets(ds[..i])
    {
      var d := ds[i];
      assert ds[..i + 1][..i] == ds[..i];
      byYear := byYear[d.reversalYear := RoundHalfEven((Get(byYear, d.reversalYear) + d.amount) as real)];
      i := i + 1;
    }
    assert ds[..i] == ds;
  }

  /** `round(dta * valuation_allowance_pct, 2)`: the allowance is taken on
      the unrounded assets. For a non-negative rate and a percentage between
      0 and 1 it lies between zero and the rounded gross assets. */
  function Allowance(ds: seq<TempDiff>, rate: real, allowancePct: real): (va: int)
    ensures rate >= 0.0 && 0.0 <= allowancePct <= 1.0 ==> 0 <= va <= RoundHalfEven(Dta(ds, rate))
  {
    var dta := Dta(ds, rate);
    if rate >= 0.0 && 0.0 <= allowancePct <= 1.0 then
      PartWithin(dta, allowancePct);
      RoundHalfEven(dta * allowancePct)
    else RoundHalfEven(dta * allowancePct)
  }

  /** `round(dta - va - dtl, 2)`: assets less allowance less liabilities.
      Without an allowance it is the rate times the net temporary difference
      with the sign turned: net taxable differences give a net liability. */
  function NetPosition(ds: seq<TempDiff>, rate: real, allowancePct: real): (net: int)
    ensures allowancePct == 0.0 ==> net == RoundHalfEven(-(Sum(Amounts(ds)) as real * rate))
  {
    var dta := Dta(ds, rate);
    var dtl := Dtl(ds, rate);
    var va := Allowance(ds, rate, allowancePct);
    if allowancePct == 0.0 then
      DtlLessDta(ds, rate);
      RoundWhole(0);
      assert va == 0;
      RoundHalfEven(dta - va as real - dtl)
    else RoundHalfEven(dta - va as real - dtl)
  }

  /** A fraction between 0 and 1 of a non-negative amount rounds to between
      zero and the rounded amount. */
  lemma PartWithin(x: real, p: real)
    requires x >= 0.0 && 0.0 <= p <= 1.0
    ensures 0 <= RoundHalfEven(x * p) <= RoundHalfEven(x)
  {
    FractionBounds(x, p);
    RoundBetween(x * p, x);
  }

  /** Rounding keeps `0 <= y <= x` in order. */
  lemma RoundBetween(y: real, x: real)
    requires 0.0 <= y <= x
    ensures 0 <= RoundHalfEven(y) <= RoundHalfEven(x)
  {
    RoundNonNegative(y);
    RoundMonotone(y, x);
  }

  lemma FractionBounds(x: real, p: real)
    requires x >= 0.0 && 0.0 <= p <= 1.0
    ensures 0.0 <= x * p <= x
  {
    MulNonNegative(x, p);
    MulNonNegative(x, 1.0 - p);
    assert x * (1.0 - p) == x - x * p;
  }

  lemma MulNonNegative(a: real, b: real)
    requires a >= 0.0 && b >= 0.0
    ensures a * b >= 0.0
  {
  }

  /** `compute_deferred_tax`: the gross balances rounded to the cent, the
      allowance and the net position, the reversal buckets and the mapping. */
  method ComputeDeferredTax(ds: seq<TempDiff>, rate: real, allowancePct: real) returns (res: DeferredTaxResult)
    ensures res.statutoryRate == rate
    ensures res.grossDtl == RoundHalfEven(Dtl(ds, rate)) && res.grossDta == RoundHalfEven(Dta(ds, rate))
    ensures res.valuationAllowance == Allowance(ds, rate, allowancePct)
    ensures res.netDeferredTax == NetPosition(ds, rate, allowancePct)
    ensures res.reversalBuckets == Buckets(ds)
    ensures res.mapping == Mapping(ds, rate)
  {
    var byYear := ReversalBuckets(ds);
    res := DeferredTaxResult(rate, RoundHalfEven(Dtl(ds, rate)), RoundHalfEven(Dta(ds, rate)),
                             Allowance(ds, rate, allowancePct), NetPosition(ds, rate, allowancePct),
                             byYear, Mapping(ds, rate));
  }
}
