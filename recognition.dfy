/** The recognition-method schedule builders of the engine
    (`straight_line`, `point_in_time`, `milestones`, `percent_complete`,
    `amortize_commission`). A schedule maps each period to the amount
    recognised in it, in cents. */
module Recognition {
  import opened Money
  import opened Periods
  import opened Calendar
  import opened Wrappers

  /** Every period of `a .. b-1` set to `c`. */
  function Constant(a: Period, b: Period, c: int): (r: Schedule)
    ensures r.Keys == RangeSet(a, b)
    ensures forall p :: p in r ==> r[p] == c
  {
    map p | p in RangeSet(a, b) :: c
  }

  lemma {:induction false} ConstantRangeSum(m: Schedule, a: Period, b: Period, c: int)
    requires a <= b
    requires forall p :: a <= p < b ==> Get(m, p) == c
    ensures SumRange(m, a, b) == c * (b - a)
    decreases b - a
  {
    if a < b {
      ConstantRangeSum(m, a, b - 1, c);
    }
  }

  /** A run of `k` periods all holding `c` totals `c * k`. */
  lemma ConstantSum(a: Period, b: Period, c: int)
    requires a <= b
    ensures MapSum(Constant(a, b, c)) == c * (b - a)
  {
    MapSumOfRange(Constant(a, b, c), a, b);
    ConstantRangeSum(Constant(a, b, c), a, b, c);
  }

  /** The even split with a last-period true-up shared by `straight_line`,
      `amortize_commission` and the loyalty schedules: `n` periods from
      `first`, each `round(price / n, 2)`, then the last period overwritten
      with `round(price - sum of the others, 2)`. */
  function EvenSplit(price: real, first: Period, n: int): (r: Schedule)
    requires n >= 1
    ensures r.Keys == RangeSet(first, first + n)
  {
    TrueUpLast(Constant(first, first + n, RoundHalfEven(price / n as real)), first + n - 1, price)
  }

  /** `out[k] = round(total - sum(v for kk, v in out.items() if kk != k), 2)`:
      period `k` takes what the other periods leave of `total`. */
  function TrueUpLast(out: Schedule, k: Period, total: real): (r: Schedule)
    ensures r.Keys == out.Keys + {k}
  {
    out[k := RoundHalfEven(total - MapSum(out - {k}) as real)]
  }

  /** The rounded per-period amount of an even split. */
  function PerPeriod(price: real, n: int): int
    requires n >= 1
  {
    RoundHalfEven(price / n as real)
  }

  /** Every period but the last holds the rounded per-period amount;
      the last holds the rounded remainder. */
  lemma EvenSplitShape(price: real, first: Period, n: int)
    requires n >= 1
    ensures forall p :: first <= p < first + n - 1 ==> EvenSplit(price, first, n)[p] == PerPeriod(price, n)
    ensures EvenSplit(price, first, n)[first + n - 1]
      == RoundHalfEven(price - (PerPeriod(price, n) * (n - 1)) as real)
  {
    var last := first + n - 1;
    var out := Constant(first, first + n, PerPeriod(price, n));
    assert out - {last} == Constant(first, last, PerPeriod(price, n));
    ConstantSum(first, last, PerPeriod(price, n));
  }

  /** The split ties out: its total is the price to within half a cent, and
      exactly the price when the price is a whole number of cents. */
  lemma EvenSplitTotal(price: real, first: Period, n: int)
    requires n >= 1
    ensures -0.5 <= MapSum(EvenSplit(price, first, n)) as real - price <= 0.5
    ensures price == price.Floor as real ==> MapSum(EvenSplit(price, first, n)) == price.Floor
  {
    var last := first + n - 1;
    var per := PerPeriod(price, n);
    var r := EvenSplit(price, first, n);
    EvenSplitShape(price, first, n);
    MapSumRemove(r, last);
    var rest := r - {last};
    assert rest == Constant(first, last, per);
    ConstantSum(first, last, per);
    if price == price.Floor as real {
      RoundWhole(price.Floor - per * (n - 1));
    }
  }

  /** `point_in_time(price, at)`: the whole price in `at`'s month. */
  function PointInTime(price: int, at: Date): (r: Schedule)
    ensures r.Keys == {MonthIndex(at)}
    ensures MapSum(r) == price
  {
    var r := map[MonthIndex(at) := price];
    MapSumUpdate(map[], MonthIndex(at), price);
    r
  }

  /** `straight_line(price, start, end)`: the price spread evenly over the
      months from `start`'s to `end`'s inclusive, the last month trued up;
      empty when `end`'s month precedes `start`'s. */
  function StraightLineSchedule(price: int, start: Date, end: Date): Schedule
  {
    if MonthSpan(start, end) == 0 then map[]
    else EvenSplit(price as real, MonthIndex(start), MonthSpan(start, end))
  }

  /** One key per month of the range; every month but the last holds
      `round(price / n, 2)`; the months total exactly `price`. */
  lemma StraightLineShape(price: int, start: Date, end: Date)
    ensures StraightLineSchedule(price, start, end).Keys == RangeSet(MonthIndex(start), MonthIndex(start) + MonthSpan(start, end))
    ensures forall p :: MonthIndex(start) <= p < MonthIndex(start) + MonthSpan(start, end) - 1 ==>
      StraightLineSchedule(price, start, end)[p] == PerPeriod(price as real, MonthSpan(start, end))
    ensures MapSum(StraightLineSchedule(price, start, end)) == price <==> MonthSpan(start, end) >= 1 || price == 0
  {
    var n := MonthSpan(start, end);
    if n >= 1 {
      EvenSplitShape(price as real, MonthIndex(start), n);
      EvenSplitTotal(price as real, MonthIndex(start), n);
    } else {
      assert RangeSet(MonthIndex(start), MonthIndex(start)) == {};
    }
  }

  /** The engine's straight line: list the months with `daterange_months`,
      give each `round(price / n, 2)`, then overwrite the last month with the
      price less the others. */
  method StraightLine(price: int, start: Date, end: Date) returns (out: Schedule)
    requires start.Valid() && end.Valid()
    ensures out == StraightLineSchedule(price, start, end)
  {
    var months := DaterangeMonths(start, end);
    if |months| == 0 {
      return map[];
    }
    var n := |months|;
    var first := MonthIndex(start);
    var per := RoundHalfEven(price as real / n as real);
    out := MonthMap(months, per);
    MonthMapConstant(months, first, per);
    var k := MonthIndex(months[n - 1]);
    assert k == first + n - 1;
    StraightLineIsEvenSplit(price, start, end, out, k);
    out := TrueUpLast(out, k, price as real);
  }

  /** The constant map trued up in its last month is the straight-line schedule. */
  lemma StraightLineIsEvenSplit(price: int, start: Date, end: Date, before: Schedule, k: Period)
    requires MonthSpan(start, end) >= 1 && k == MonthIndex(start) + MonthSpan(start, end) - 1
    requires before == Constant(MonthIndex(start), MonthIndex(start) + MonthSpan(start, end),
                                RoundHalfEven(price as real / MonthSpan(start, end) as real))
    ensures TrueUpLast(before, k, price as real) == StraightLineSchedule(price, start, end)
  {
  }

  /** `{f"{d.year}-{d.month:02d}": v for d in months}` */
  function MonthMap(months: seq<Date>, v: int): (r: Schedule)
    ensures forall p :: p in r ==> r[p] == v
  {
    var keys := set d | d in months :: MonthIndex(d);
    map p | p in keys :: v
  }

  /** Over the months of `daterange_months`, that map is constant on the
      range of month indices. */
  lemma MonthMapConstant(months: seq<Date>, first: Period, v: int)
    requires forall i :: 0 <= i < |months| ==> months[i] == FirstOfMonth(first + i)
    ensures MonthMap(months, v) == Constant(first, first + |months|, v)
  {
    var keys := set d | d in months :: MonthIndex(d);
    forall p | p in RangeSet(first, first + |months|) ensures p in keys {
      assert months[p - first] in months;
      assert MonthIndex(months[p - first]) == p;
    }
    assert keys == RangeSet(first, first + |months|);
  }

  /** A milestone: its share of the price and the date it was met, if any. */
  datatype Milestone = Milestone(pct: real, met: Option<Date>)

  /** Whether `m` counts towards the schedule (`if not met: continue`). */
  predicate Met(m: Milestone)
  {
    m.met.Some?
  }

  /** The period a met milestone lands in. */
  function MetPeriod(m: Milestone): Period
    requires Met(m)
  {
    MonthIndex(m.met.value)
  }

  /** `milestones(price, ms)` after the milestones `ms` have been seen. */
  function MilestonesSpec(price: int, ms: seq<Milestone>): Schedule
  {
    if ms == [] then map[]
    else
      var out := MilestonesSpec(price, ms[..|ms| - 1]);
      var m := ms[|ms| - 1];
      if !Met(m) then out
      else out[MetPeriod(m) := RoundHalfEven(Get(out, MetPeriod(m)) as real + Scale(price, m.pct))]
  }

  /** `milestones`: each met milestone's share is added into the month it was
      met in and the running amount rounded; unmet milestones are skipped. */
  method Milestones(price: int, ms: seq<Milestone>) returns (out: Schedule)
    ensures out == MilestonesSpec(price, ms)
  {
    out := map[];
    var i := 0;
    while i < |ms|
      invariant 0 <= i <= |ms|
      invariant out == MilestonesSpec(price, ms[..i])
    {
      var m := ms[i];
      assert ms[..i + 1][..i] == ms[..i];
      if Met(m) {
        var key := MetPeriod(m);
        out := out[key := RoundHalfEven(Get(out, key) as real + Scale(price, m.pct))];
      }
      i := i + 1;
    }
    assert ms[..|ms|] == ms;
  }

  /** The months that receive revenue are exactly those of the met milestones. */
  lemma {:induction false} MilestonesKeys(price: int, ms: seq<Milestone>)
    ensures MilestonesSpec(price, ms).Keys == set m | m in ms && Met(m) :: MetPeriod(m)
  {
    if ms != [] {
      var front := ms[..|ms| - 1];
      MilestonesKeys(price, front);
      assert ms == front + [ms[|ms| - 1]];
      assert (set m | m in ms && Met(m) :: MetPeriod(m))
        == (set m | m in front && Met(m) :: MetPeriod(m))
           + (if Met(ms[|ms| - 1]) then {MetPeriod(ms[|ms| - 1])} else {});
    }
  }

  /** Sum of the shares of the met milestones. */
  function MetShare(ms: seq<Milestone>): real
  {
    if ms == [] then 0.0
    else MetShare(ms[..|ms| - 1]) + (if Met(ms[|ms| - 1]) then ms[|ms| - 1].pct else 0.0)
  }

  /** Number of met milestones. */
  function MetCount(ms: seq<Milestone>): nat
  {
    if ms == [] then 0
    else MetCount(ms[..|ms| - 1]) + (if Met(ms[|ms| - 1]) then 1 else 0)
  }

  /** The schedule recognises the met milestones' share of the price, up to
      half a cent of rounding per met milestone; unmet shares are never
      recognised, so the total can fall short of the price. */
  lemma {:induction false} MilestonesTotal(price: int, ms: seq<Milestone>)
    ensures var gap := MapSum(MilestonesSpec(price, ms)) as real - Scale(price, MetShare(ms));
      -0.5 * MetCount(ms) as real <= gap <= 0.5 * MetCount(ms) as real
  {
    if ms != [] {
      var front, m := ms[..|ms| - 1], ms[|ms| - 1];
      MilestonesTotal(price, front);
      var out := MilestonesSpec(price, front);
      if Met(m) {
        var k := MetPeriod(m);
        var v := RoundHalfEven(Get(out, k) as real + Scale(price, m.pct));
        assert MilestonesSpec(price, ms) == out[k := v];
        MapSumUpdate(out, k, v);
        assert MetShare(ms) == MetShare(front) + m.pct;
        ScaleAdd(price, MetShare(front), m.pct);
        assert MetCount(ms) == MetCount(front) + 1;
      } else {
        assert MilestonesSpec(price, ms) == out;
        assert MetShare(ms) == MetShare(front);
        assert MetCount(ms) == MetCount(front);
      }
    }
  }

  /** The two milestones of the engine's test (40% met 2025-01-15, 60% met
      2025-03-01) recognise 400.00 in January and 600.00 in March. */
  lemma MilestonesExample()
    ensures MilestonesSpec(100000, [Milestone(0.4, Some(Date(2025, 1, 15))), Milestone(0.6, Some(Date(2025, 3, 1)))])
      == map[MonthIndex(Date(2025, 1, 1)) := 40000, MonthIndex(Date(2025, 3, 1)) := 60000]
  {
    var ms := [Milestone(0.4, Some(Date(2025, 1, 15))), Milestone(0.6, Some(Date(2025, 3, 1)))];
    assert ms[..1] == [ms[0]];
    assert ms[..1][..0] == [];
    RoundWhole(40000);
    RoundWhole(60000);
  }

  /** `schedule_logic.milestones`: the same schedule, but only after checking
      that all milestone shares, met or not, add up to 100% within 1%. */
  function ValidatedMilestones(price: int, ms: seq<Milestone>): (r: Result<Schedule>)
    ensures r.Failure? <==> (AllShares(ms) - 1.0 > 0.01 || 1.0 - AllShares(ms) > 0.01)
    ensures r.Success? ==> r.value == MilestonesSpec(price, ms)
  {
    var total := AllShares(ms);
    if MaxReal(total - 1.0, 1.0 - total) > 0.01 then Failure("Milestone percentages must sum to 100%")
    else Success(MilestonesSpec(price, ms))
  }

  /** Sum of every milestone's share, met or not. */
  function AllShares(ms: seq<Milestone>): real
  {
    if ms == [] then 0.0 else AllShares(ms[..|ms| - 1]) + ms[|ms| - 1].pct
  }

  /** One row of a percent-complete schedule: a period and the cumulative
      fraction of completion reported for it. */
  datatype Progress = Progress(period: Period, cumulative: real)

  /** `round(price * max(0, cum - prev), 2)` */
  function Increment(price: int, cum: real, prev: real): int
  {
    RoundHalfEven(Scale(price, MaxReal(0.0, cum - prev)))
  }

  /** The cumulative fraction the row before row `i` reported (0 before the first). */
  function PrevCumulative(rows: seq<Progress>, i: nat): real
    requires i <= |rows|
  {
    if i == 0 then 0.0 else rows[i - 1].cumulative
  }

  /** `percent_complete(price, rows)` after the rows `rows` have been seen:
      each row's period is set (not added) to the rounded increment over the
      previous row, and `prev` always moves to the row's cumulative value. */
  function PercentCompleteSpec(price: int, rows: seq<Progress>): Schedule
  {
    if rows == [] then map[]
    else
      var i := |rows| - 1;
      PercentCompleteSpec(price, rows[..i])[rows[i].period := Increment(price, rows[i].cumulative, PrevCumulative(rows, i))]
  }

  method PercentComplete(price: int, rows: seq<Progress>) returns (out: Schedule)
    ensures out == PercentCompleteSpec(price, rows)
  {
    out := map[];
    var prev := 0.0;
    var i := 0;
    while i < |rows|
      invariant 0 <= i <= |rows|
      invariant prev == PrevCumulative(rows, i)
      invariant out == PercentCompleteSpec(price, rows[..i])
    {
      var cum := rows[i].cumulative;
      var delta := MaxReal(0.0, cum - prev);
      assert rows[..i + 1][..i] == rows[..i];
      assert rows[..i + 1][i] == rows[i];
      assert PrevCumulative(rows[..i + 1], i) == prev;
      out := out[rows[i].period := RoundHalfEven(Scale(price, delta))];
      prev := cum;
      i := i + 1;
    }
    assert rows[..|rows|] == rows;
  }

  /** The periods of the schedule are exactly the rows' periods, and with a
      non-negative price every amount is non-negative: a fall in the
      cumulative fraction is clamped to zero, never reversed. */
  lemma {:induction false} PercentCompleteShape(price: int, rows: seq<Progress>)
    ensures PercentCompleteSpec(price, rows).Keys == set r | r in rows :: r.period
    ensures price >= 0 ==> forall p :: p in PercentCompleteSpec(price, rows) ==> PercentCompleteSpec(price, rows)[p] >= 0
  {
    if rows != [] {
      var i := |rows| - 1;
      PercentCompleteShape(price, rows[..i]);
      assert rows == rows[..i] + [rows[i]];
      assert (set r | r in rows :: r.period) == (set r | r in rows[..i] :: r.period) + {rows[i].period};
      if price >= 0 {
        RoundNonNegative(Scale(price, MaxReal(0.0, rows[i].cumulative - PrevCumulative(rows, i))));
      }
    }
  }

  /** The engine's test: 30%, 80%, 100% complete over three months on
      1000.00 recognises 300.00, 500.00 and 200.00. */
  lemma PercentCompleteExample()
    ensures PercentCompleteSpec(100000, [Progress(0, 0.3), Progress(1, 0.8), Progress(2, 1.0)])
      == map[0 := 30000, 1 := 50000, 2 := 20000]
  {
    var rows := [Progress(0, 0.3), Progress(1, 0.8), Progress(2, 1.0)];
    assert rows[..2] == [rows[0], rows[1]];
    assert rows[..2][..1] == [rows[0]];
    assert rows[..2][..1][..0] == [];
    assert Increment(100000, 0.3, 0.0) == 30000 by { RoundWhole(30000); }
    assert Increment(100000, 0.8, 0.3) == 50000 by { RoundWhole(50000); }
    assert Increment(100000, 1.0, 0.8) == 20000 by { RoundWhole(20000); }
    assert PercentCompleteSpec(100000, rows[..1]) == map[0 := 30000];
    assert PercentCompleteSpec(100000, rows[..2]) == map[0 := 30000, 1 := 50000];
  }

  /** Because `prev` follows every row, a dip in reported progress is
      recognised twice: 100%, 0%, 100% over three months recognises the
      price twice over. */
  lemma PercentCompleteRecountsAfterDip()
    ensures MapSum(PercentCompleteSpec(100000, [Progress(0, 1.0), Progress(1, 0.0), Progress(2, 1.0)])) == 200000
  {
    var rows := [Progress(0, 1.0), Progress(1, 0.0), Progress(2, 1.0)];
    assert rows[..2] == [rows[0], rows[1]];
    assert rows[..2][..1] == [rows[0]];
    assert rows[..2][..1][..0] == [];
    assert Increment(100000, 1.0, 0.0) == 100000 by { RoundWhole(100000); }
    assert Increment(100000, 0.0, 1.0) == 0 by { RoundWhole(0); }
    assert PercentCompleteSpec(100000, rows[..1]) == map[0 := 100000];
    assert PercentCompleteSpec(100000, rows[..2]) == map[0 := 100000, 1 := 0];
    var r := map[0 := 100000, 1 := 0, 2 := 100000];
    assert PercentCompleteSpec(100000, rows) == r;
    MapSumUpdate(map[0 := 100000, 1 := 0], 2, 100000);
    MapSumUpdate(map[0 := 100000], 1, 0);
    MapSumUpdate(map[], 0, 100000);
  }

  /** `amortize_commission(total, months, start)`: nothing for a non-positive
      term, otherwise the even split over the `months` months from `start`. */
  function AmortizeCommission(total: int, months: int, start: Date): (r: Schedule)
    ensures months <= 0 ==> r == map[]
    ensures months >= 1 ==> r.Keys == RangeSet(MonthIndex(start), MonthIndex(start) + months)
    ensures months >= 1 ==> MapSum(r) == total
  {
    if months <= 0 then map[]
    else
      var r := EvenSplit(total as real, MonthIndex(start), months);
      EvenSplitTotal(total as real, MonthIndex(start), months);
      r
  }
}
