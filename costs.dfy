/** Amortization of capitalised contract costs (`amortize_cost`, ASC 340-40):
    the total is spread over the months by weights (equal, percent complete,
    or a custom curve), each share rounded to the cent with the drift put on
    the last month, and then run down from the total month by month, each
    month amortizing at most what remains. Amounts are in cents. */
module Costs {
  import opened Money
  import opened Periods
  import opened Calendar
  import opened Wrappers

  const StraightLineCost := "straight_line"
  const PercentCompleteCost := "percent_complete"
  const CustomCurveCost := "custom_curve"

  /** One row of the amortization table; `month` is the row's `"YYYY-MM"`. */
  datatype CostRow = CostRow(period: int, month: Period, opening: int, amortization: int, closing: int)

  datatype CostResult = CostResult(costMethod: string, rows: seq<CostRow>, totalAmortization: int)

  /** The weights the method selects, or the error it raises. */
  function Weights(months: int, costMethod: string, percentComplete: Option<seq<real>>, curve: Option<seq<real>>): (r: Result<seq<real>>)
    requires months > 0
    ensures r.Success? ==> |r.value| == months
  {
    if costMethod == StraightLineCost then Success(seq(months, _ => 1.0))
    else if costMethod == PercentCompleteCost then
      if percentComplete.None? || |percentComplete.value| != months
      then Failure("ValueError: percent_complete must be length == months")
      else Success(percentComplete.value)
    else if costMethod == CustomCurveCost then
      if curve.None? || |curve.value| != months
      then Failure("ValueError: curve must be length == months")
      else Success(curve.value)
    else Failure("ValueError: invalid method")
  }

  /** `[round((w / weight_sum) * total, 2) for w in weights]` */
  function Rounded(weights: seq<real>, weightSum: real, total: int): (r: seq<int>)
    requires weightSum != 0.0
    ensures |r| == |weights|
    ensures forall i :: 0 <= i < |weights| ==> r[i] == RoundHalfEven(Scale(total, weights[i] / weightSum))
  {
    seq(|weights|, i requires 0 <= i < |weights| => RoundHalfEven(Scale(total, weights[i] / weightSum)))
  }

  /** The drift fix: the rounding drift, when not zero, is added to the last
      amount. */
  function DriftFixed(rounded: seq<int>, total: int): (r: seq<int>)
    requires |rounded| > 0
  {
    var drift := RoundHalfEven((total - Sum(rounded)) as real);
    if drift != 0 then rounded[|rounded| - 1 := RoundHalfEven((rounded[|rounded| - 1] + drift) as real)]
    else rounded
  }

  /** The fix leaves every amount but the last alone and makes the amounts
      total exactly `total`. */
  lemma DriftFixedTotal(rounded: seq<int>, total: int)
    requires |rounded| > 0
    ensures var r := DriftFixed(rounded, total);
      && |r| == |rounded|
      && r[..|r| - 1] == rounded[..|rounded| - 1]
      && r[|r| - 1] == total - Sum(rounded[..|rounded| - 1])
      && Sum(r) == total
  {
    var n := |rounded| - 1;
    var r := DriftFixed(rounded, total);
    RoundWhole(total - Sum(rounded));
    RoundWhole(rounded[n] + total - Sum(rounded));
    assert r[..n] == rounded[..n];
    assert rounded[..n + 1][..n] == rounded[..n] && rounded[..n + 1] == rounded;
    assert r[..n + 1] == r;
  }

  /** A month's amortization: `min(opening, amt)` as written; with
      `clampAtZero` also never below zero. */
  function Amort(opening: int, amt: int, clampAtZero: bool): int
  {
    if clampAtZero && Min(opening, amt) < 0 then 0 else Min(opening, amt)
  }

  /** What remains after amortizing the amounts `amts` in order from `total`. */
  function Remaining(total: int, amts: seq<int>, clampAtZero: bool): int
  {
    if amts == [] then total
    else
      var c := Remaining(total, amts[..|amts| - 1], clampAtZero);
      c - Amort(c, amts[|amts| - 1], clampAtZero)
  }

  /** The rows for the amounts `amts`, numbered from 1, the first in `first`. */
  function CostRows(total: int, amts: seq<int>, first: Period, clampAtZero: bool): (r: seq<CostRow>)
    ensures |r| == |amts|
  {
    if amts == [] then []
    else
      var n := |amts| - 1;
      var opening := Remaining(total, amts[..n], clampAtZero);
      var amort := Amort(opening, amts[n], clampAtZero);
      CostRows(total, amts[..n], first, clampAtZero) + [CostRow(n + 1, first + n, opening, amort, opening - amort)]
  }

  function Amortizations(rows: seq<CostRow>): (r: seq<int>)
    ensures |r| == |rows| && forall i :: 0 <= i < |rows| ==> r[i] == rows[i].amortization
  {
    seq(|rows|, i requires 0 <= i < |rows| => rows[i].amortization)
  }

  /** The amounts to amortize, or the error `amortize_cost` raises. */
  function CostAmounts(total: int, months: int, costMethod: string, percentComplete: Option<seq<real>>, curve: Option<seq<real>>): (r: Result<seq<int>>)
    ensures r.Success? ==> months > 0 && |r.value| == months
  {
    if months <= 0 then Failure("ValueError: months must be > 0")
    else if total < 0 then Failure("ValueError: total must be >= 0")
    else
      var w := Weights(months, costMethod, percentComplete, curve);
      if w.Failure? then Failure(w.error)
      else
        var weightSum := SumReal(w.value);
        if weightSum <= 0.0 then Failure("ValueError: weights must sum > 0")
        else Success(DriftFixed(Rounded(w.value, weightSum, total), total))
  }

  /** `amortize_cost(total, months, start, method, percent_complete, curve)`,
      as written (`clampAtZero` false) or with the corrected clamp. */
  function AmortizeCostSpec(total: int, months: int, start: Date, costMethod: string,
                            percentComplete: Option<seq<real>>, curve: Option<seq<real>>, clampAtZero: bool): Result<CostResult>
  {
    var amts := CostAmounts(total, months, costMethod, percentComplete, curve);
    if amts.Failure? then Failure(amts.error)
    else
      var rows := CostRows(total, amts.value, MonthIndex(start), clampAtZero);
      Success(CostResult(costMethod, rows, Sum(Amortizations(rows))))
  }

  /** The row loop of `amortize_cost`: each month opens with what remains,
      amortizes `min(opening, amt)` and closes with the rest. */
  method RunDown(total: int, amts: seq<int>, first: Period) returns (rows: seq<CostRow>)
    ensures rows == CostRows(total, amts, first, false)
  {
    rows := [];
    var remaining := total;
    var i := 0;
    while i < |amts|
      invariant 0 <= i <= |amts|
      invariant remaining == Remaining(total, amts[..i], false)
      invariant rows == CostRows(total, amts[..i], first, false)
    {
      assert amts[..i + 1][..i] == amts[..i];
      var opening := remaining;
      var amort := Min(opening, amts[i]);
      remaining := opening - amort;
      rows := rows + [CostRow(i + 1, first + i, opening, amort, remaining)];
      i := i + 1;
    }
    assert amts[..i] == amts;
  }

  /** `amortize_cost`: validate, weight and round, then run the balance down
      month by month. */
  method AmortizeCost(total: int, months: int, start: Date, costMethod: string,
                      percentComplete: Option<seq<real>>, curve: Option<seq<real>>) returns (r: Result<CostResult>)
    ensures r == AmortizeCostSpec(total, months, start, costMethod, percentComplete, curve, false)
  {
    var amounts := CostAmounts(total, months, costMethod, percentComplete, curve);
    if amounts.Failure? {
      return Failure(amounts.error);
    }
    var rows := RunDown(total, amounts.value, MonthIndex(start));
    r := Success(CostResult(costMethod, rows, Sum(Amortizations(rows))));
  }

  /** The argument errors, checked first. */
  lemma AmortizeCostErrors(total: int, months: int, start: Date, costMethod: string,
                           percentComplete: Option<seq<real>>, curve: Option<seq<real>>, clampAtZero: bool)
    ensures var r := AmortizeCostSpec(total, months, start, costMethod, percentComplete, curve, clampAtZero);
      && (months <= 0 ==> r == Failure("ValueError: months must be > 0"))
      && (months > 0 && total < 0 ==> r == Failure("ValueError: total must be >= 0"))
      && (r.Success? <==> CostAmounts(total, months, costMethod, percentComplete, curve).Success?)
  {
  }

  /** The weight errors: an unknown method, a list of the wrong length, and
      weights that do not sum above zero. */
  lemma CostWeightErrors(total: int, months: int, costMethod: string,
                         percentComplete: Option<seq<real>>, curve: Option<seq<real>>)
    requires months > 0 && total >= 0
    ensures var r := CostAmounts(total, months, costMethod, percentComplete, curve);
      && (costMethod !in {StraightLineCost, PercentCompleteCost, CustomCurveCost} ==>
            r == Failure("ValueError: invalid method"))
      && (costMethod == PercentCompleteCost && (percentComplete.None? || |percentComplete.value| != months) ==>
            r == Failure("ValueError: percent_complete must be length == months"))
      && (costMethod == CustomCurveCost && (curve.None? || |curve.value| != months) ==>
            r == Failure("ValueError: curve must be length == months"))
      && (costMethod == CustomCurveCost && curve.Some? && |curve.value| == months && SumReal(curve.value) <= 0.0 ==>
            r == Failure("ValueError: weights must sum > 0"))
      && (costMethod == StraightLineCost ==> r.Success?)
  {
    if costMethod == StraightLineCost {
      SumRealOnes(months);
    }
  }

  /** `float(sum([1] * months))` is `months`. */
  lemma {:induction false} SumRealOnes(n: nat)
    ensures SumReal(seq(n, _ => 1.0)) == n as real
  {
    if n > 0 {
      SumRealOnes(n - 1);
      assert seq(n, _ => 1.0)[..n - 1] == seq(n - 1, _ => 1.0);
    }
  }

  /** Row `i` is numbered `i + 1`, falls `i` months after the start, opens
      with what the previous rows left, and closes with what it leaves. */
  lemma {:induction false} CostRowsShape(total: int, amts: seq<int>, first: Period, clampAtZero: bool, i: nat)
    requires i < |amts|
    ensures var row := CostRows(total, amts, first, clampAtZero)[i];
      && row.period == i + 1 && row.month == first + i
      && row.opening == Remaining(total, amts[..i], clampAtZero)
      && row.amortization == Amort(row.opening, amts[i], clampAtZero)
      && row.closing == row.opening - row.amortization
      && row.closing == Remaining(total, amts[..i + 1], clampAtZero)
  {
    var n := |amts| - 1;
    assert amts[..i + 1][..i] == amts[..i];
    if i < n {
      CostRowsShape(total, amts[..n], first, clampAtZero, i);
      assert amts[..n][..i] == amts[..i] && amts[..n][..i + 1] == amts[..i + 1];
    } else {
      assert amts[..i + 1] == amts;
    }
  }

  /** The amortizations add up to the total less what finally remains. */
  lemma {:induction false} CostRowsTelescope(total: int, amts: seq<int>, first: Period, clampAtZero: bool)
    ensures Sum(Amortizations(CostRows(total, amts, first, clampAtZero))) == total - Remaining(total, amts, clampAtZero)
  {
    if amts != [] {
      var n := |amts| - 1;
      var rows := CostRows(total, amts, first, clampAtZero);
      CostRowsTelescope(total, amts[..n], first, clampAtZero);
      assert Amortizations(rows)[..n] == Amortizations(CostRows(total, amts[..n], first, clampAtZero));
    }
  }

  /** While every amount is non-negative, the balance is the total less the
      amounts so far, never below zero. */
  lemma {:induction false} RemainingNonNegative(total: int, amts: seq<int>, clampAtZero: bool)
    requires total >= 0
    requires forall i :: 0 <= i < |amts| ==> amts[i] >= 0
    ensures Remaining(total, amts, clampAtZero) == if total - Sum(amts) < 0 then 0 else total - Sum(amts)
  {
    if amts != [] {
      var n := |amts| - 1;
      RemainingNonNegative(total, amts[..n], clampAtZero);
    }
  }

  /** With the corrected clamp, amounts that are non-negative but for the
      last, which is the total less the others, run the balance down to zero
      and amortize exactly the total. */
  lemma CorrectedRunDownEnds(total: int, amts: seq<int>, first: Period)
    requires total >= 0 && |amts| > 0
    requires forall i :: 0 <= i < |amts| - 1 ==> amts[i] >= 0
    requires amts[|amts| - 1] == total - Sum(amts[..|amts| - 1])
    ensures CostRows(total, amts, first, true)[|amts| - 1].closing == 0
    ensures Sum(Amortizations(CostRows(total, amts, first, true))) == total
  {
    var n := |amts| - 1;
    RemainingNonNegative(total, amts[..n], true);
    CostRowsShape(total, amts, first, true, n);
    CostRowsTelescope(total, amts, first, true);
    assert amts[..n + 1] == amts;
  }

  /** With non-negative weights every amount but the last is non-negative,
      and the last is the total less the others. */
  lemma CostAmountsShape(total: int, months: int, costMethod: string,
                         percentComplete: Option<seq<real>>, curve: Option<seq<real>>)
    requires CostAmounts(total, months, costMethod, percentComplete, curve).Success?
    requires percentComplete.Some? ==> forall i :: 0 <= i < |percentComplete.value| ==> percentComplete.value[i] >= 0.0
    requires curve.Some? ==> forall i :: 0 <= i < |curve.value| ==> curve.value[i] >= 0.0
    ensures var amts := CostAmounts(total, months, costMethod, percentComplete, curve).value;
      && total >= 0
      && (forall i :: 0 <= i < |amts| - 1 ==> amts[i] >= 0)
      && amts[|amts| - 1] == total - Sum(amts[..|amts| - 1])
      && Sum(amts) == total
  {
    var w := Weights(months, costMethod, percentComplete, curve).value;
    WeightsNonNegative(months, costMethod, percentComplete, curve);
    var ws := SumReal(w);
    var rounded := Rounded(w, ws, total);
    RoundedNonNegative(w, ws, total);
    var amts := DriftFixed(rounded, total);
    assert CostAmounts(total, months, costMethod, percentComplete, curve).value == amts;
    DriftFixedTotal(rounded, total);
    var n := |amts| - 1;
    forall i | 0 <= i < n ensures amts[i] >= 0 {
      assert amts[i] == amts[..n][i] && rounded[i] == rounded[..n][i];
    }
  }

  /** The weights the rules accept are non-negative when the given
      percentages and curve are. */
  lemma WeightsNonNegative(months: int, costMethod: string, percentComplete: Option<seq<real>>, curve: Option<seq<real>>)
    requires months > 0 && Weights(months, costMethod, percentComplete, curve).Success?
    requires percentComplete.Some? ==> forall i :: 0 <= i < |percentComplete.value| ==> percentComplete.value[i] >= 0.0
    requires curve.Some? ==> forall i :: 0 <= i < |curve.value| ==> curve.value[i] >= 0.0
    ensures var w := Weights(months, costMethod, percentComplete, curve).value;
      forall i :: 0 <= i < |w| ==> w[i] >= 0.0
  {
  }

  /** Non-negative weights over a positive sum round to non-negative
      amounts of a non-negative total. */
  lemma RoundedNonNegative(w: seq<real>, ws: real, total: int)
    requires ws > 0.0 && total >= 0
    requires forall i :: 0 <= i < |w| ==> w[i] >= 0.0
    ensures forall i :: 0 <= i < |w| ==> Rounded(w, ws, total)[i] >= 0
  {
    forall i | 0 <= i < |w| ensures Rounded(w, ws, total)[i] >= 0 {
      QuotientNonNegative(w[i], ws);
      ScaleNonNegative(total, w[i] / ws);
      RoundNonNegative(Scale(total, w[i] / ws));
    }
  }

  lemma QuotientNonNegative(a: real, b: real)
    requires a >= 0.0 && b > 0.0
    ensures a / b >= 0.0
  {
  }

  /** With non-negative weights the corrected schedule amortizes exactly the
      total and ends with nothing left. */
  lemma CorrectedCostTiesOut(total: int, months: int, start: Date, costMethod: string,
                             percentComplete: Option<seq<real>>, curve: Option<seq<real>>)
    requires AmortizeCostSpec(total, months, start, costMethod, percentComplete, curve, true).Success?
    requires percentComplete.Some? ==> forall i :: 0 <= i < |percentComplete.value| ==> percentComplete.value[i] >= 0.0
    requires curve.Some? ==> forall i :: 0 <= i < |curve.value| ==> curve.value[i] >= 0.0
    ensures var r := AmortizeCostSpec(total, months, start, costMethod, percentComplete, curve, true).value;
      && |r.rows| == months
      && r.rows[months - 1].closing == 0
      && r.totalAmortization == total
  {
    CostAmountsShape(total, months, costMethod, percentComplete, curve);
    CorrectedRunDownEnds(total, CostAmounts(total, months, costMethod, percentComplete, curve).value, MonthIndex(start));
  }

  lemma ScaleNonNegative(amount: int, rate: real)
    requires amount >= 0 && rate >= 0.0
    ensures Scale(amount, rate) >= 0.0
  {
  }

  /** As written, $0.03 over five equal months rounds each month up to a
      cent, so the drift fix puts -$0.01 on the last month; the first three
      months use up the total, the fourth amortizes nothing, and
      `min(opening, amt)` lets the fifth amortize -$0.01, so the table ends
      with $0.01 unamortized and a total amortization of $0.02. */
  lemma CostOvershoot(start: Date)
    ensures var r := AmortizeCostSpec(3, 5, start, StraightLineCost, None, None, false);
      && r.Success?
      && r.value.rows[4].amortization == -1
      && r.value.rows[4].closing == 1
      && r.value.totalAmortization == 2
  {
    var w := Weights(5, StraightLineCost, None, None).value;
    assert w == [1.0, 1.0, 1.0, 1.0, 1.0];
    calc {
      SumReal(w);
      SumReal(w[..4]) + 1.0;
      { assert w[..4][..3] == w[..3]; }
      SumReal(w[..3]) + 2.0;
      { assert w[..3][..2] == w[..2]; }
      SumReal(w[..2]) + 3.0;
      { assert w[..2][..1] == w[..1]; }
      SumReal(w[..1]) + 4.0;
      { assert w[..1][..0] == []; }
      5.0;
    }
    var rounded := Rounded(w, 5.0, 3);
    assert RoundHalfEven(Scale(3, 1.0 / 5.0)) == 1;
    assert rounded == [1, 1, 1, 1, 1];
    calc {
      Sum(rounded);
      Sum(rounded[..4]) + 1;
      { assert rounded[..4][..3] == rounded[..3]; }
      Sum(rounded[..3]) + 2;
      { assert rounded[..3][..2] == rounded[..2]; }
      Sum(rounded[..2]) + 3;
      { assert rounded[..2][..1] == rounded[..1]; }
      Sum(rounded[..1]) + 4;
      { assert rounded[..1][..0] == []; }
      5;
    }
    RoundWhole(-2);
    RoundWhole(-1);
    var amts := DriftFixed(rounded, 3);
    assert amts == [1, 1, 1, 1, -1];
    assert amts[..1] == [1] && [1][..0] == [];
    var r1 := Remaining(3, amts[..1], false);
    assert r1 == 2;
    assert amts[..2][..1] == amts[..1];
    var r2 := Remaining(3, amts[..2], false);
    assert r2 == 1;
    assert amts[..3][..2] == amts[..2];
    var r3 := Remaining(3, amts[..3], false);
    assert r3 == 0;
    assert amts[..4][..3] == amts[..3];
    assert Remaining(3, amts[..4], false) == 0;
    assert amts[..5] == amts;
    CostRowsShape(3, amts, MonthIndex(start), false, 4);
    CostRowsTelescope(3, amts, MonthIndex(start), false);
  }
}
