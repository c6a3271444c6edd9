/** Variable consideration (`revrec/backend/app/variable.py`): the expected
    returns adjustment (ASC 606-10-55-22 to 55-29), the loyalty-point material
    right carved out of the price, and its recognition schedule with
    breakage recognised in the final month (ASC 606-10-55-41 to 55-49).
    Amounts are in cents. */
module Variable {
  import opened Money
  import opened Periods
  import opened Calendar
  import opened Recognition

  /** The returns adjustment: revenue reversed, the refund owed, and the
      asset for goods expected back. */
  datatype Returns = Returns(contraRevenue: int, refundLiability: int, returnsAsset: int)

  /** The share of the refund booked as the returns asset: 60%. */
  const AssetShare: real := 0.60

  /** `expected_returns_adjustment(point_in_time_revenue, returns_rate)` */
  function ExpectedReturns(revenue: int, rate: real): (r: Returns)
    ensures rate == 0.0 || revenue == 0 ==> r == Returns(0, 0, 0)
    ensures r.contraRevenue + r.refundLiability == 0
    ensures r.refundLiability == RoundHalfEven(Scale(revenue, rate))
    ensures r.returnsAsset == RoundHalfEven(Scale(r.refundLiability, AssetShare))
  {
    if rate == 0.0 || revenue == 0 then Returns(0, 0, 0)
    else
      var adjustment := RoundHalfEven(Scale(revenue, rate));
      Returns(-adjustment, adjustment, RoundHalfEven(Scale(adjustment, AssetShare)))
  }

  /** `loyalty_liability_allocation(transaction_price, loyalty_pct)`: the
      deferred material right, zero for a zero percentage. */
  function LoyaltyLiability(price: int, pct: real): (r: int)
    ensures pct == 0.0 ==> r == 0
    ensures r == RoundHalfEven(Scale(price, pct))
    ensures price >= 0 && pct >= 0.0 ==> r >= 0
  {
    if pct == 0.0 then 0 else RoundHalfEven(Scale(price, pct))
  }

  /** `round(liability * (1 - breakage_rate), 2)`: the part expected to be redeemed. */
  function ExpectedRedemption(liability: int, breakage: real): int
  {
    RoundHalfEven(Scale(liability, 1.0 - breakage))
  }

  /** `loyalty_recognition_schedule(liability, start, months, breakage_rate)`:
      nothing for a non-positive term or a zero liability; otherwise the
      expected redemption spread evenly over the term with the breakage added
      on top of the final month. */
  function LoyaltySchedule(liability: int, start: Date, months: int, breakage: real): Schedule
  {
    if months <= 0 || liability == 0 then map[]
    else BreakageOnLast(liability, ExpectedRedemption(liability, breakage), start, months)
  }

  /** The schedule over a positive term once the expected redemption is
      known: `expected` spread over the months from `start`, then the final
      month set to `round(schedule[end] + breakage_value, 2)` with
      `breakage_value = round(liability - expected, 2)`. */
  function BreakageOnLast(liability: int, expected: int, start: Date, months: int): Schedule
    requires months >= 1
  {
    var end := AddMonths(start, months - 1);
    var breakageValue := RoundHalfEven((liability - expected) as real);
    var schedule := EvenSplit(expected as real, MonthIndex(start), MonthSpan(start, end));
    schedule[MonthIndex(end) := RoundHalfEven((Get(schedule, MonthIndex(end)) + breakageValue) as real)]
  }

  /** The schedule runs over the `months` months from `start`; every month
      but the last recognises the even share of the expected redemption;
      the last month holds its trued-up share with the whole breakage on
      top; and expected redemption plus breakage recognise the whole
      liability. */
  lemma LoyaltyScheduleTiesOut(liability: int, start: Date, months: int, breakage: real)
    requires months >= 1 && liability != 0
    ensures LoyaltySchedule(liability, start, months, breakage).Keys == RangeSet(MonthIndex(start), MonthIndex(start) + months)
    ensures forall p :: MonthIndex(start) <= p < MonthIndex(start) + months - 1 ==>
      LoyaltySchedule(liability, start, months, breakage)[p] == PerPeriod(ExpectedRedemption(liability, breakage) as real, months)
    ensures var last := MonthIndex(start) + months - 1;
      LoyaltySchedule(liability, start, months, breakage)[last]
        == EvenSplit(ExpectedRedemption(liability, breakage) as real, MonthIndex(start), months)[last]
           + (liability - ExpectedRedemption(liability, breakage))
    ensures MapSum(LoyaltySchedule(liability, start, months, breakage)) == liability
  {
    BreakageOnLastShape(liability, ExpectedRedemption(liability, breakage), start, months);
    BreakageOnLastTotal(liability, ExpectedRedemption(liability, breakage), start, months);
  }

  /** The same facts for any whole expected redemption. */
  lemma BreakageOnLastShape(liability: int, expected: int, start: Date, months: int)
    requires months >= 1
    ensures BreakageOnLast(liability, expected, start, months).Keys == RangeSet(MonthIndex(start), MonthIndex(start) + months)
    ensures forall p :: MonthIndex(start) <= p < MonthIndex(start) + months - 1 ==>
      BreakageOnLast(liability, expected, start, months)[p] == PerPeriod(expected as real, months)
    ensures var last := MonthIndex(start) + months - 1;
      BreakageOnLast(liability, expected, start, months)[last]
        == EvenSplit(expected as real, MonthIndex(start), months)[last] + (liability - expected)
  {
    BreakageOnLastIsTopUp(liability, expected, start, months);
    TopUpShape(expected as real, MonthIndex(start), months, liability - expected);
  }

  /** The breakage on top of the last month makes the schedule total the
      whole liability. */
  lemma BreakageOnLastTotal(liability: int, expected: int, start: Date, months: int)
    requires months >= 1
    ensures MapSum(BreakageOnLast(liability, expected, start, months)) == liability
  {
    var end := AddMonths(start, months - 1);
    assert MonthSpan(start, end) == months;
    var schedule := EvenSplit(expected as real, MonthIndex(start), MonthSpan(start, end));
    assert MapSum(schedule) == expected by {
      EvenSplitTotal(expected as real, MonthIndex(start), months);
    }
    RoundedTopUpTotal(schedule, MonthIndex(end), expected, liability);
  }

  /** Rounding the breakage onto one month of a schedule that totals the
      expected redemption makes it total the liability. */
  lemma RoundedTopUpTotal(schedule: Schedule, last: Period, expected: int, liability: int)
    requires MapSum(schedule) == expected
    ensures MapSum(schedule[last := RoundHalfEven((Get(schedule, last) + RoundHalfEven((liability - expected) as real)) as real)]) == liability
  {
    BreakageUnrounded(schedule, last, expected, liability);
    TopUpTotal(schedule, last, liability - expected, expected);
  }

  /** Adding `extra` to one month of a schedule adds `extra` to its total. */
  lemma TopUpTotal(schedule: Schedule, last: Period, extra: int, total: int)
    requires MapSum(schedule) == total
    ensures MapSum(schedule[last := Get(schedule, last) + extra]) == total + extra
  {
    MapSumUpdate(schedule, last, Get(schedule, last) + extra);
  }

  /** Over a positive term the schedule is the even split with the breakage
      added, unrounded, to its last month. */
  lemma BreakageOnLastIsTopUp(liability: int, expected: int, start: Date, months: int)
    requires months >= 1
    ensures var schedule := EvenSplit(expected as real, MonthIndex(start), months);
      var last := MonthIndex(start) + months - 1;
      BreakageOnLast(liability, expected, start, months) == schedule[last := Get(schedule, last) + (liability - expected)]
  {
    var first := MonthIndex(start);
    var last := first + months - 1;
    var end := AddMonths(start, months - 1);
    assert MonthIndex(end) == last;
    assert MonthSpan(start, end) == months;
    BreakageUnrounded(EvenSplit(expected as real, first, months), last, expected, liability);
  }

  /** An even split with `extra` added to its last month keeps its months,
      and keeps every month but the last. */
  lemma TopUpShape(price: real, first: Period, months: int, extra: int)
    requires months >= 1
    ensures var schedule := EvenSplit(price, first, months);
      var last := first + months - 1;
      var topped := schedule[last := Get(schedule, last) + extra];
      && topped.Keys == RangeSet(first, first + months)
      && (forall p :: first <= p < last ==> topped[p] == PerPeriod(price, months))
      && topped[last] == schedule[last] + extra
  {
    EvenSplitShape(price, first, months);
  }

  /** Both roundings of the breakage top-up act on whole cents. */
  lemma BreakageUnrounded(schedule: Schedule, last: Period, expected: int, liability: int)
    ensures schedule[last := RoundHalfEven((Get(schedule, last) + RoundHalfEven((liability - expected) as real)) as real)]
      == schedule[last := Get(schedule, last) + (liability - expected)]
  {
    RoundWhole(liability - expected);
    RoundWhole(Get(schedule, last) + liability - expected);
  }

  /** A non-positive term or a zero liability schedules nothing. */
  lemma LoyaltyScheduleEmpty(liability: int, start: Date, months: int, breakage: real)
    ensures LoyaltySchedule(liability, start, months, breakage) == map[] <==> months <= 0 || liability == 0
  {
    if months >= 1 && liability != 0 {
      LoyaltyScheduleTiesOut(liability, start, months, breakage);
      assert MonthIndex(start) in LoyaltySchedule(liability, start, months, breakage);
    }
  }
}

/** The older variable-consideration module (`backend/app/variable.py`): no
    zero short-circuits, a positive contra-revenue, and a loyalty schedule
    that spreads only the expected redemption, never the breakage. */
module VariableV1 {
  import opened Money
  import opened Periods
  import opened Calendar
  import opened Wrappers
  import opened Recognition
  import Variable

  /** `expected_returns_adjustment`: contra-revenue and refund are the same
      positive amount. */
  function ExpectedReturnsV1(revenue: int, rate: real): (r: Variable.Returns)
    ensures r.contraRevenue == r.refundLiability == RoundHalfEven(Scale(revenue, rate))
    ensures r.returnsAsset == RoundHalfEven(Scale(r.contraRevenue, 0.6))
  {
    var contra := RoundHalfEven(Scale(revenue, rate));
    Variable.Returns(contra, contra, RoundHalfEven(Scale(contra, 0.6)))
  }

  /** The two drafts agree on the refund and the asset and differ in the sign
      of the contra-revenue whenever there is anything to reverse. */
  lemma ReturnsDraftsDiffer(revenue: int, rate: real)
    ensures ExpectedReturnsV1(revenue, rate).refundLiability == Variable.ExpectedReturns(revenue, rate).refundLiability
    ensures ExpectedReturnsV1(revenue, rate).returnsAsset == Variable.ExpectedReturns(revenue, rate).returnsAsset
    ensures ExpectedReturnsV1(revenue, rate).contraRevenue == -Variable.ExpectedReturns(revenue, rate).contraRevenue
  {
    if rate == 0.0 || revenue == 0 {
      RoundWhole(0);
    }
  }

  /** `loyalty_liability_allocation`: `round(price * pct, 2)`; the same value
      the later draft computes, since its short-circuit gives the same zero. */
  function LoyaltyLiabilityV1(price: int, pct: real): (r: int)
    ensures r == Variable.LoyaltyLiability(price, pct)
  {
    RoundWhole(0);
    RoundHalfEven(Scale(price, pct))
  }

  /** `loyalty_recognition_schedule`: `months` months from `start`, each
      `round(expected / months, 2)`, the last trued up to the unrounded
      expected redemption `liability * (1 - breakage_rate)`. A non-positive
      term fails at `months_list[-1]`. */
  function LoyaltyScheduleV1(liability: int, start: Date, months: int, breakage: real): Result<Schedule>
  {
    if months <= 0 then Failure("IndexError: list index out of range")
    else Success(EvenSplit(Scale(liability, 1.0 - breakage), MonthIndex(start), months))
  }

  /** The schedule covers the term exactly and recognises only the expected
      redemption: its total is within half a cent of `liability * (1 - breakage)`. */
  lemma LoyaltyScheduleV1Shape(liability: int, start: Date, months: int, breakage: real)
    ensures LoyaltyScheduleV1(liability, start, months, breakage).Failure? <==> months <= 0
    ensures months >= 1 ==>
      var s := LoyaltyScheduleV1(liability, start, months, breakage).value;
      && s.Keys == RangeSet(MonthIndex(start), MonthIndex(start) + months)
      && -0.5 <= MapSum(s) as real - Scale(liability, 1.0 - breakage) <= 0.5
  {
    if months >= 1 {
      EvenSplitTotal(Scale(liability, 1.0 - breakage), MonthIndex(start), months);
    }
  }
}
