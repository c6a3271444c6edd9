/** Lease accounting: the period dates of a lease, its payments with an
    optional CPI step-up, the liability and right-of-use (ROU) asset schedule,
    and the four journal lines posted per period.
    Amounts are cents: inputs are whole cents, the running balances are exact
    `real` cents, and every figure written to a row is rounded to a whole cent
    as `round(x, 2)` rounds dollars. The float power `x ** k` is exact here. */
module Leases {
  import opened Money
  import opened Wrappers
  import opened Calendar
  import PeriodKeys

  datatype Freq = Monthly | Quarterly | Annual

  /** `_months_between`: the difference of the month indices. Its day term
      is `0` on both branches, so the day is ignored. */
  function MonthsBetween(start: Date, end: Date): (r: int)
    ensures r == MonthIndex(end) - MonthIndex(start)
  {
    (end.year - start.year) * 12 + (end.month - start.month) + (if end.day < start.day then 0 else 0)
  }

  /** The `for day in (31, 30, 29, 28)` loop of `_add_months`: the first
      candidate `min(d.day, day)` that makes a valid date wins; `lastDay` is
      the fallback after every candidate failed. */
  function FirstValidDay(y: int, m: int, dday: int, cands: seq<int>, lastDay: int): (r: Date)
    requires 1 <= m <= 12
  {
    if cands == [] then Date(y, m, lastDay)
    else
      var c := Min(dday, cands[0]);
      if 1 <= c <= DaysInMonth(y, m) then Date(y, m, c)
      else FirstValidDay(y, m, dday, cands[1..], cands[0])
  }

  /** `_add_months(d, n)`: `n` months later, the day clamped to the length
      of the target month. */
  function AddMonthsClamped(d: Date, n: int): (r: Date)
    requires d.Valid()
    ensures r.Valid()
    ensures MonthIndex(r) == MonthIndex(d) + n
    ensures r.day == Min(d.day, DaysInMonth(r.year, r.month))
  {
    var y := d.year + (d.month - 1 + n) / 12;
    var m := (d.month - 1 + n) % 12 + 1;
    ClampDay(y, m, d.day);
    FirstValidDay(y, m, d.day, [31, 30, 29, 28], 28)
  }

  /** Trying 31, 30, 29 and 28 in turn clamps the day to the month's length. */
  lemma ClampDay(y: int, m: int, dday: int)
    requires 1 <= m <= 12 && 1 <= dday <= 31
    ensures FirstValidDay(y, m, dday, [31, 30, 29, 28], 28) == Date(y, m, Min(dday, DaysInMonth(y, m)))
  {
    var dim := DaysInMonth(y, m);
    var c := [31, 30, 29, 28];
    assert c[1..] == [30, 29, 28] && c[1..][1..] == [29, 28] && c[1..][1..][1..] == [28];
    if dday > dim {
      if dim == 30 {
        assert FirstValidDay(y, m, dday, c, 28) == FirstValidDay(y, m, dday, [30, 29, 28], 31);
      } else if dim == 29 {
        assert FirstValidDay(y, m, dday, [30, 29, 28], 31) == FirstValidDay(y, m, dday, [29, 28], 30);
      } else if dim == 28 {
        assert FirstValidDay(y, m, dday, [30, 29, 28], 31) == FirstValidDay(y, m, dday, [29, 28], 30);
        assert FirstValidDay(y, m, dday, [29, 28], 30) == FirstValidDay(y, m, dday, [28], 29);
      }
    }
  }

  /** Months between two payments. */
  function StepMonths(freq: Freq): (r: int)
    ensures r > 0
  {
    match freq
    case Monthly => 1
    case Quarterly => 3
    case Annual => 12
  }

  /** `_periods`: the months from start to end inclusive, in periods of the
      payment frequency, a part period counting as a whole one. */
  function PeriodCount(start: Date, end: Date, freq: Freq): (r: int)
    ensures var months := MonthIndex(end) - MonthIndex(start) + 1;
      (r - 1) * StepMonths(freq) < months <= r * StepMonths(freq)
    ensures freq == Monthly ==> r == MonthIndex(end) - MonthIndex(start) + 1
  {
    var months := MonthsBetween(start, end) + 1;
    match freq
    case Monthly => months
    case Quarterly => CeilDiv(months, 3)
    case Annual => CeilDiv(months, 12)
  }

  /** `_period_date_idx`: the date of period `i`, counted from 0. */
  function PeriodDate(start: Date, i: int, freq: Freq): (r: Date)
    requires start.Valid()
    ensures r.Valid()
    ensures MonthIndex(r) == MonthIndex(start) + i * StepMonths(freq)
    ensures r.day == Min(start.day, DaysInMonth(r.year, r.month))
  {
    match freq
    case Monthly => AddMonthsClamped(start, i)
    case Quarterly => AddMonthsClamped(start, i * 3)
    case Annual => AddMonthsClamped(start, i * 12)
  }

  /** `_period_rate`: the discount rate per payment period. */
  function PeriodRate(annual: real, freq: Freq): real
  {
    match freq
    case Monthly => annual / 12.0
    case Quarterly => annual / 4.0
    case Annual => annual
  }

  /** `x ** k` for a whole `k >= 0`. */
  function PowNat(x: real, k: nat): (r: real)
    ensures x != 0.0 ==> r != 0.0
    ensures x > 0.0 ==> r > 0.0
    ensures x >= 1.0 ==> r >= 1.0
  {
    if k == 0 then 1.0 else x * PowNat(x, k - 1)
  }

  /** `x ** k` for a whole `k`, negative powers dividing. */
  function Power(x: real, k: int): real
    requires x != 0.0
  {
    if k >= 0 then PowNat(x, k) else 1.0 / PowNat(x, -k)
  }

  /** The CPI step-ups before period `i`: how many whole `interval`s of
      months have passed since the start. */
  function Bumps(i: int, freq: Freq, interval: int): int
    requires interval != 0
  {
    match freq
    case Monthly => FloorDiv(i, interval)
    case Quarterly => FloorDiv(i * 3, interval)
    case Annual => FloorDiv(i * 12, interval)
  }

  const IntZeroDivision := "ZeroDivisionError: integer division or modulo by zero"
  const FloatZeroDivision := "ZeroDivisionError: float division by zero"

  /** `_payment_for_period`: the base payment, stepped up by `cpi` per bump. */
  function PaymentForPeriod(base: real, i: int, freq: Freq, cpi: real, interval: int): (r: Result<real>)
    ensures r.Failure? <==> cpi > 0.0 && interval == 0
    ensures cpi <= 0.0 ==> r == Success(base)
  {
    if cpi <= 0.0 then Success(base)
    else if interval == 0 then Failure(IntZeroDivision)
    else Success(Escalated(base, Power(1.0 + cpi, Bumps(i, freq, interval))))
  }

  /** The base payment times its step-up factor. */
  function Escalated(base: real, factor: real): real
  {
    base * factor
  }

  lemma {:induction false} PowNatMonotone(x: real, a: nat, b: nat)
    requires x >= 1.0 && a <= b
    ensures PowNat(x, a) <= PowNat(x, b)
    decreases b
  {
    if a < b {
      PowNatMonotone(x, a, b - 1);
      var p := PowNat(x, b - 1);
      assert p >= 1.0;
      assert x * p >= p by {
        assert (x - 1.0) * p >= 0.0;
      }
    }
  }

  lemma DivMonotone(a: int, b: int, d: int)
    requires a <= b && d > 0
    ensures a / d <= b / d
  {
    var q1, q2 := a / d, b / d;
    assert d * q1 <= a && b < d * q2 + d;
    assert d * q1 < d * (q2 + 1);
    MulLtCancel(d, q1, q2 + 1);
  }

  lemma MulLtCancel(d: int, x: int, y: int)
    requires d > 0 && d * x < d * y
    ensures x < y
  {
  }

  /** Later periods have at least as many step-ups, and none is negative. */
  lemma BumpsMonotone(i: int, j: int, freq: Freq, interval: int)
    requires 0 <= i <= j && interval > 0
    ensures 0 <= Bumps(i, freq, interval) <= Bumps(j, freq, interval)
  {
    var s := StepMonths(freq);
    assert 0 <= i * s <= j * s by {
      match freq
      case Monthly =>
      case Quarterly =>
      case Annual =>
    }
    DivMonotone(0, i * s, interval);
    DivMonotone(i * s, j * s, interval);
  }

  /** With a positive escalation, a positive interval and a non-negative base,
      a later period never pays less than an earlier one. */
  lemma PaymentNonDecreasing(base: real, i: int, j: int, freq: Freq, cpi: real, interval: int)
    requires 0 <= i <= j && base >= 0.0 && cpi > 0.0 && interval > 0
    ensures PaymentForPeriod(base, i, freq, cpi, interval).value <= PaymentForPeriod(base, j, freq, cpi, interval).value
  {
    var bi := Bumps(i, freq, interval);
    var bj := Bumps(j, freq, interval);
    BumpsMonotone(i, j, freq, interval);
    PaymentAt(base, i, freq, cpi, interval);
    PaymentAt(base, j, freq, cpi, interval);
    PowNatMonotone(1.0 + cpi, bi, bj);
    ScaleMonotone(base, PowNat(1.0 + cpi, bi), PowNat(1.0 + cpi, bj));
  }

  /** From period 0 on, the payment is the base stepped up once per bump. */
  lemma PaymentAt(base: real, i: int, freq: Freq, cpi: real, interval: int)
    requires 0 <= i && cpi > 0.0 && interval > 0
    ensures 0 <= Bumps(i, freq, interval)
    ensures PaymentForPeriod(base, i, freq, cpi, interval).Success?
    ensures PaymentForPeriod(base, i, freq, cpi, interval).value == Escalated(base, PowNat(1.0 + cpi, Bumps(i, freq, interval)))
  {
    BumpsMonotone(i, i, freq, interval);
  }

  /** A larger step-up factor never lowers a non-negative base payment. */
  lemma ScaleMonotone(base: real, x: real, y: real)
    requires base >= 0.0 && x <= y
    ensures Escalated(base, x) <= Escalated(base, y)
  {
    assert base * (y - x) >= 0.0;
  }

  /** A row of the lease schedule. */
  datatype LeaseRow = LeaseRow(
    period: int, date: Date, payment: int, interest: int, principal: int,
    endingLiability: int, rouAmortization: int, rouCarryingAmount: int)

  datatype LeaseSchedule = LeaseSchedule(
    leaseId: string, rows: seq<LeaseRow>, totalInterest: int, totalPayments: int,
    openingLiability: int, openingRouAsset: int)

  /** The payments of the `n` periods. */
  function Payments(base: real, n: nat, freq: Freq, cpi: real, interval: int): (r: seq<real>)
    requires n > 0 ==> cpi <= 0.0 || interval != 0
    ensures |r| == n
    ensures forall i :: 0 <= i < n ==> r[i] == PaymentForPeriod(base, i, freq, cpi, interval).value
  {
    seq(n, i requires 0 <= i < n => PaymentForPeriod(base, i, freq, cpi, interval).value)
  }

  /** The sum of the payments, payment `i` discounted over `i + 1` periods
      at the growth factor `q = 1 + r`, accumulated in period order. */
  function PresentValue(amts: seq<real>, q: real): real
    requires q != 0.0
  {
    if amts == [] then 0.0
    else PresentValue(amts[..|amts| - 1], q) + amts[|amts| - 1] / PowNat(q, |amts|)
  }

  /** The running state of the schedule loop after some periods. */
  datatype Roll = Roll(rows: seq<LeaseRow>, liability: real, rou: real, totalInterest: real, totalPayments: real)

  /** The schedule loop after its first `k` periods: interest accrues on the
      liability, the payment less the interest reduces it (never below
      zero), and the ROU asset is written down by an equal share per period
      (never below zero). */
  function LeaseRoll(amts: seq<real>, dates: seq<Date>, r: real, openingLiability: int, openingRou: int, k: nat): (st: Roll)
    requires |amts| == |dates| && k <= |amts|
    ensures |st.rows| == k
    decreases k
  {
    if k == 0 then Roll([], openingLiability as real, openingRou as real, 0.0, 0.0)
    else
      var prev := LeaseRoll(amts, dates, r, openingLiability, openingRou, k - 1);
      Advance(prev, k, dates[k - 1], amts[k - 1], r, openingRou as real / |amts| as real)
  }

  /** One period of the schedule loop: period number `k`, payment `pmt`. */
  function Advance(prev: Roll, k: int, date: Date, pmt: real, r: real, rouAmort: real): (st: Roll)
    ensures |st.rows| == |prev.rows| + 1 && st.rows[..|prev.rows|] == prev.rows
  {
    var interest := prev.liability * r;
    var principal := pmt - interest;
    var liability := MaxReal(0.0, prev.liability - principal);
    var rou := MaxReal(0.0, prev.rou - rouAmort);
    var row := LeaseRow(k, date, RoundHalfEven(pmt), RoundHalfEven(interest), RoundHalfEven(principal),
                        RoundHalfEven(liability), RoundHalfEven(rouAmort), RoundHalfEven(rou));
    Roll(prev.rows + [row], liability, rou, prev.totalInterest + interest, prev.totalPayments + pmt)
  }

  lemma RollStep(amts: seq<real>, dates: seq<Date>, r: real, openingLiability: int, openingRou: int, k: nat)
    requires |amts| == |dates| && k < |amts|
    ensures LeaseRoll(amts, dates, r, openingLiability, openingRou, k + 1)
      == Advance(LeaseRoll(amts, dates, r, openingLiability, openingRou, k), k + 1, dates[k], amts[k], r, openingRou as real / |amts| as real)
  {
  }

  function PeriodDates(start: Date, n: nat, freq: Freq): (r: seq<Date>)
    requires start.Valid()
    ensures |r| == n && forall i :: 0 <= i < n ==> r[i] == PeriodDate(start, i, freq)
  {
    seq(n, i requires 0 <= i < n => PeriodDate(start, i, freq))
  }

  /** `compute_schedule` with its inputs in cents (the dates already parsed).
      It fails, as the loop's first period would, when a step-up needs a zero
      interval or when the discount factor is zero. */
  function ComputeScheduleSpec(leaseId: string, start: Date, end: Date, payment: int, freq: Freq, discountAnnual: real,
                               idc: int, incentives: int, cpi: real, interval: int): Result<LeaseSchedule>
    requires start.Valid() && end.Valid()
  {
    var n := PeriodCount(start, end, freq);
    var r := PeriodRate(discountAnnual, freq);
    if n > 0 && cpi > 0.0 && interval == 0 then Failure(IntZeroDivision)
    else if n > 0 && 1.0 + r == 0.0 then Failure(FloatZeroDivision)
    else Success(ScheduleOver(leaseId, start, if n > 0 then n else 0, payment, freq, r, idc, incentives, cpi, interval))
  }

  /** The schedule of `count` periods at the period rate `r`. */
  function ScheduleOver(leaseId: string, start: Date, count: nat, payment: int, freq: Freq, r: real,
                        idc: int, incentives: int, cpi: real, interval: int): LeaseSchedule
    requires start.Valid() && (count > 0 ==> (cpi <= 0.0 || interval != 0) && 1.0 + r != 0.0)
  {
    var amts := Payments(payment as real, count, freq, cpi, interval);
    var pv := if count > 0 then PresentValue(amts, 1.0 + r) else 0.0;
    Assemble(leaseId, amts, PeriodDates(start, count, freq), r, pv, idc, incentives)
  }

  /** The schedule of the payments `amts` due on `dates`, whose present value
      is `pv`: the opening liability is the rounded present value, the
      opening ROU asset adds the direct costs and deducts the incentives. */
  function Assemble(leaseId: string, amts: seq<real>, dates: seq<Date>, r: real, pv: real, idc: int, incentives: int): LeaseSchedule
    requires |amts| == |dates|
  {
    var openingLiability := RoundHalfEven(pv);
    var openingRou := RoundHalfEven(pv + idc as real - incentives as real);
    var st := LeaseRoll(amts, dates, r, openingLiability, openingRou, |amts|);
    LeaseSchedule(leaseId, st.rows, RoundHalfEven(st.totalInterest), RoundHalfEven(st.totalPayments),
                  openingLiability, openingRou)
  }

  /** The present-value loop of `compute_schedule`. */
  method DiscountPayments(payment: int, n: nat, freq: Freq, cpi: real, interval: int, r: real) returns (pv: real)
    requires (n > 0 ==> cpi <= 0.0 || interval != 0) && 1.0 + r != 0.0
    ensures pv == PresentValue(Payments(payment as real, n, freq, cpi, interval), 1.0 + r)
  {
    ghost var amts := Payments(payment as real, n, freq, cpi, interval);
    pv := 0.0;
    var i := 0;
    while i < n
      invariant 0 <= i <= n
      invariant pv == PresentValue(amts[..i], 1.0 + r)
    {
      var amt := PaymentForPeriod(payment as real, i, freq, cpi, interval).value;
      assert amts[..i + 1][..i] == amts[..i];
      pv := pv + amt / PowNat(1.0 + r, i + 1);
      i := i + 1;
    }
    assert amts[..i] == amts;
  }

  /** The row loop of `compute_schedule`. */
  method BuildRows(start: Date, n: nat, payment: int, freq: Freq, cpi: real, interval: int, r: real,
                   openingLiability: int, openingRou: int) returns (st: Roll)
    requires start.Valid() && (n > 0 ==> cpi <= 0.0 || interval != 0)
    ensures st == LeaseRoll(Payments(payment as real, n, freq, cpi, interval), PeriodDates(start, n, freq), r, openingLiability, openingRou, n)
  {
    ghost var amts := Payments(payment as real, n, freq, cpi, interval);
    ghost var dates := PeriodDates(start, n, freq);
    var rows: seq<LeaseRow> := [];
    var liability := openingLiability as real;
    var rou := openingRou as real;
    var totalInterest := 0.0;
    var totalPayments := 0.0;
    var i := 0;
    while i < n
      invariant 0 <= i <= n
      invariant Roll(rows, liability, rou, totalInterest, totalPayments) == LeaseRoll(amts, dates, r, openingLiability, openingRou, i)
    {
      RollStep(amts, dates, r, openingLiability, openingRou, i);
      var dt := PeriodDate(start, i, freq);
      var pmt := PaymentForPeriod(payment as real, i, freq, cpi, interval).value;
      var next := Advance(Roll(rows, liability, rou, totalInterest, totalPayments), i + 1, dt, pmt, r, openingRou as real / n as real);
      rows, liability, rou := next.rows, next.liability, next.rou;
      totalInterest, totalPayments := next.totalInterest, next.totalPayments;
      i := i + 1;
    }
    st := Roll(rows, liability, rou, totalInterest, totalPayments);
  }

  /** `compute_schedule`. */
  method ComputeSchedule(leaseId: string, start: Date, end: Date, payment: int, freq: Freq, discountAnnual: real,
                         idc: int, incentives: int, cpi: real, interval: int) returns (res: Result<LeaseSchedule>)
    requires start.Valid() && end.Valid()
    ensures res == ComputeScheduleSpec(leaseId, start, end, payment, freq, discountAnnual, idc, incentives, cpi, interval)
  {
    var n := PeriodCount(start, end, freq);
    var r := PeriodRate(discountAnnual, freq);
    if n > 0 && cpi > 0.0 && interval == 0 {
      return Failure(IntZeroDivision);
    }
    if n > 0 && 1.0 + r == 0.0 {
      return Failure(FloatZeroDivision);
    }
    var s := ScheduleFor(leaseId, start, if n > 0 then n else 0, payment, freq, r, idc, incentives, cpi, interval);
    res := Success(s);
  }

  /** The body of `compute_schedule` once the inputs are known to be usable:
      the present value, the opening balances and the row loop. */
  method ScheduleFor(leaseId: string, start: Date, count: nat, payment: int, freq: Freq, r: real,
                     idc: int, incentives: int, cpi: real, interval: int) returns (s: LeaseSchedule)
    requires start.Valid() && (count > 0 ==> (cpi <= 0.0 || interval != 0) && 1.0 + r != 0.0)
    ensures s == ScheduleOver(leaseId, start, count, payment, freq, r, idc, incentives, cpi, interval)
  {
    ghost var amts := Payments(payment as real, count, freq, cpi, interval);
    ghost var dates := PeriodDates(start, count, freq);
    var pv := 0.0;
    if count > 0 {
      pv := DiscountPayments(payment, count, freq, cpi, interval, r);
    }
    assert ScheduleOver(leaseId, start, count, payment, freq, r, idc, incentives, cpi, interval)
      == Assemble(leaseId, amts, dates, r, pv, idc, incentives);
    var openingLiability := RoundHalfEven(pv);
    var openingRou := RoundHalfEven(pv + idc as real - incentives as real);
    var st := BuildRows(start, count, payment, freq, cpi, interval, r, openingLiability, openingRou);
    s := LeaseSchedule(leaseId, st.rows, RoundHalfEven(st.totalInterest), RoundHalfEven(st.totalPayments),
                       openingLiability, openingRou);
  }

  /** The rows the loop has written keep their place, number, date and
      non-negative balances. */
  lemma {:induction false} LeaseRollRows(amts: seq<real>, dates: seq<Date>, r: real, openingLiability: int, openingRou: int, k: nat)
    requires |amts| == |dates| && k <= |amts|
    ensures var st := LeaseRoll(amts, dates, r, openingLiability, openingRou, k);
      forall i :: 0 <= i < k ==> RowKept(st.rows[i], i + 1, dates[i], openingRou as real / |amts| as real)
  {
    if k > 0 {
      LeaseRollRows(amts, dates, r, openingLiability, openingRou, k - 1);
      var prev := LeaseRoll(amts, dates, r, openingLiability, openingRou, k - 1);
      var st := Advance(prev, k, dates[k - 1], amts[k - 1], r, openingRou as real / |amts| as real);
      AdvanceRow(prev, k, dates[k - 1], amts[k - 1], r, openingRou as real / |amts| as real);
      assert st == LeaseRoll(amts, dates, r, openingLiability, openingRou, k);
    }
  }

  /** Row `row` is period `k`, dated `date`, writes the ROU asset down by
      the rounded `rouAmort`, and shows balances that are not negative. */
  predicate RowKept(row: LeaseRow, k: int, date: Date, rouAmort: real)
  {
    && row.period == k && row.date == date && row.rouAmortization == RoundHalfEven(rouAmort)
    && row.endingLiability >= 0 && row.rouCarryingAmount >= 0
  }

  /** The row one period adds carries its period number and date, the
      write-down, and balances that are not negative. */
  lemma AdvanceRow(prev: Roll, k: int, date: Date, pmt: real, r: real, rouAmort: real)
    ensures var st := Advance(prev, k, date, pmt, r, rouAmort);
      st.rows == prev.rows + [st.rows[|prev.rows|]] && RowKept(st.rows[|prev.rows|], k, date, rouAmort)
  {
    var st := Advance(prev, k, date, pmt, r, rouAmort);
    RoundNonNegative(st.liability);
    RoundNonNegative(st.rou);
  }

  /** A successful schedule has one row per period, numbered 1 to n and dated
      at the start plus whole periods (the day clamped to the month), with
      non-negative liability and ROU balances and an equal ROU write-down. */
  lemma ComputeScheduleShape(leaseId: string, start: Date, end: Date, payment: int, freq: Freq, discountAnnual: real,
                             idc: int, incentives: int, cpi: real, interval: int)
    requires start.Valid() && end.Valid()
    ensures var res := ComputeScheduleSpec(leaseId, start, end, payment, freq, discountAnnual, idc, incentives, cpi, interval);
      var n := PeriodCount(start, end, freq);
      res.Success? ==>
        && res.value.leaseId == leaseId
        && |res.value.rows| == (if n > 0 then n else 0)
        && forall i :: 0 <= i < |res.value.rows| ==>
          RowKept(res.value.rows[i], i + 1, PeriodDate(start, i, freq), res.value.openingRouAsset as real / n as real)
  {
    var n := PeriodCount(start, end, freq);
    var r := PeriodRate(discountAnnual, freq);
    if !(n > 0 && cpi > 0.0 && interval == 0) && !(n > 0 && 1.0 + r == 0.0) {
      ScheduleOverShape(leaseId, start, if n > 0 then n else 0, payment, freq, r, idc, incentives, cpi, interval);
    }
  }

  lemma ScheduleOverShape(leaseId: string, start: Date, count: nat, payment: int, freq: Freq, r: real,
                          idc: int, incentives: int, cpi: real, interval: int)
    requires start.Valid() && (count > 0 ==> (cpi <= 0.0 || interval != 0) && 1.0 + r != 0.0)
    ensures var s := ScheduleOver(leaseId, start, count, payment, freq, r, idc, incentives, cpi, interval);
      && s.leaseId == leaseId
      && |s.rows| == count
      && forall i :: 0 <= i < count ==>
        RowKept(s.rows[i], i + 1, PeriodDate(start, i, freq), s.openingRouAsset as real / count as real)
  {
    var amts := Payments(payment as real, count, freq, cpi, interval);
    var pv := if count > 0 then PresentValue(amts, 1.0 + r) else 0.0;
    AssembleShape(leaseId, amts, PeriodDates(start, count, freq), r, pv, idc, incentives);
  }

  lemma AssembleShape(leaseId: string, amts: seq<real>, dates: seq<Date>, r: real, pv: real, idc: int, incentives: int)
    requires |amts| == |dates|
    ensures var s := Assemble(leaseId, amts, dates, r, pv, idc, incentives);
      && s.leaseId == leaseId
      && |s.rows| == |amts|
      && forall i :: 0 <= i < |amts| ==> RowKept(s.rows[i], i + 1, dates[i], s.openingRouAsset as real / |amts| as real)
  {
    LeaseRollRows(amts, dates, r, RoundHalfEven(pv), RoundHalfEven(pv + idc as real - incentives as real), |amts|);
  }

  /** The schedule fails exactly when a step-up needs a zero interval or the
      discount factor is zero, and only when there is a period to compute. */
  lemma ComputeScheduleErrors(leaseId: string, start: Date, end: Date, payment: int, freq: Freq, discountAnnual: real,
                              idc: int, incentives: int, cpi: real, interval: int)
    requires start.Valid() && end.Valid()
    ensures var res := ComputeScheduleSpec(leaseId, start, end, payment, freq, discountAnnual, idc, incentives, cpi, interval);
      var n := PeriodCount(start, end, freq);
      && (res.Failure? <==> n > 0 && ((cpi > 0.0 && interval == 0) || 1.0 + PeriodRate(discountAnnual, freq) == 0.0))
      && (res == Failure(IntZeroDivision) <==> n > 0 && cpi > 0.0 && interval == 0)
  {
  }

  /** One journal line. */
  datatype JournalLine = JournalLine(leaseId: string, date: Date, account: string, debit: int, credit: int, memo: string)

  /** `str(n)` */
  function IntText(n: int): string
  {
    if n >= 0 then PeriodKeys.DecimalText(n) else "-" + PeriodKeys.DecimalText(-n)
  }

  /** The four lines of one schedule row: interest and ROU amortization
      debited, the payment credited to cash and the principal to the lease
      liability. */
  function RowJournal(leaseId: string, row: LeaseRow): (r: seq<JournalLine>)
    ensures |r| == 4
  {
    [ JournalLine(leaseId, row.date, "Lease Interest Expense", row.interest, 0, "Period " + IntText(row.period)),
      JournalLine(leaseId, row.date, "ROU Amortization Expense", row.rouAmortization, 0, "Period " + IntText(row.period)),
      JournalLine(leaseId, row.date, "Cash", 0, row.payment, "Payment period " + IntText(row.period)),
      JournalLine(leaseId, row.date, "Lease Liability", 0, row.principal, "Principal period " + IntText(row.period)) ]
  }

  /** The journal of a schedule: the rows' four lines, row by row. */
  function Journals(leaseId: string, rows: seq<LeaseRow>): (r: seq<JournalLine>)
    ensures |r| == 4 * |rows|
  {
    if rows == [] then [] else Journals(leaseId, rows[..|rows| - 1]) + RowJournal(leaseId, rows[|rows| - 1])
  }

  /** `journals_from_schedule` */
  method JournalsFromSchedule(leaseId: string, rows: seq<LeaseRow>) returns (j: seq<JournalLine>)
    ensures j == Journals(leaseId, rows)
  {
    j := [];
    var i := 0;
    while i < |rows|
      invariant 0 <= i <= |rows|
      invariant j == Journals(leaseId, rows[..i])
    {
      assert rows[..i + 1][..i] == rows[..i];
      var r := rows[i];
      j := j + [JournalLine(leaseId, r.date, "Lease Interest Expense", r.interest, 0, "Period " + IntText(r.period))];
      j := j + [JournalLine(leaseId, r.date, "ROU Amortization Expense", r.rouAmortization, 0, "Period " + IntText(r.period))];
      j := j + [JournalLine(leaseId, r.date, "Cash", 0, r.payment, "Payment period " + IntText(r.period))];
      j := j + [JournalLine(leaseId, r.date, "Lease Liability", 0, r.principal, "Principal period " + IntText(r.period))];
      i := i + 1;
    }
    assert rows[..i] == rows;
  }

  /** Line `4k + t` of the journal is line `t` of row `k`'s four. */
  lemma JournalsShape(leaseId: string, rows: seq<LeaseRow>)
    ensures forall k, t :: 0 <= k < |rows| && 0 <= t < 4 ==>
      Journals(leaseId, rows)[4 * k + t] == RowJournal(leaseId, rows[k])[t]
  {
    forall k, t | 0 <= k < |rows| && 0 <= t < 4
      ensures Journals(leaseId, rows)[4 * k + t] == RowJournal(leaseId, rows[k])[t]
    {
      JournalAt(leaseId, rows, k, t);
    }
  }

  lemma {:induction false} JournalAt(leaseId: string, rows: seq<LeaseRow>, k: int, t: int)
    requires 0 <= k < |rows| && 0 <= t < 4
    ensures Journals(leaseId, rows)[4 * k + t] == RowJournal(leaseId, rows[k])[t]
  {
    var n := |rows| - 1;
    var front := Journals(leaseId, rows[..n]);
    var last := RowJournal(leaseId, rows[n]);
    assert Journals(leaseId, rows) == front + last;
    assert |front| == 4 * n;
    if k < n {
      JournalAt(leaseId, rows[..n], k, t);
      assert 4 * k + t < 4 * n;
      assert (front + last)[4 * k + t] == front[4 * k + t];
      assert rows[..n][k] == rows[k];
    } else {
      assert 4 * k + t == |front| + t;
      assert (front + last)[4 * k + t] == last[t];
    }
  }

  function Debits(j: seq<JournalLine>): (r: seq<int>)
    ensures |r| == |j| && forall i :: 0 <= i < |j| ==> r[i] == j[i].debit
  {
    seq(|j|, i requires 0 <= i < |j| => j[i].debit)
  }

  function Credits(j: seq<JournalLine>): (r: seq<int>)
    ensures |r| == |j| && forall i :: 0 <= i < |j| ==> r[i] == j[i].credit
  {
    seq(|j|, i requires 0 <= i < |j| => j[i].credit)
  }

  function RowDebit(rows: seq<LeaseRow>): int
  {
    if rows == [] then 0 else RowDebit(rows[..|rows| - 1]) + rows[|rows| - 1].interest + rows[|rows| - 1].rouAmortization
  }

  function RowCredit(rows: seq<LeaseRow>): int
  {
    if rows == [] then 0 else RowCredit(rows[..|rows| - 1]) + rows[|rows| - 1].payment + rows[|rows| - 1].principal
  }

  lemma Sum4(a: int, b: int, c: int, d: int)
    ensures Sum([a, b, c, d]) == a + b + c + d
  {
    assert [a, b, c, d][..3] == [a, b, c];
    assert [a, b, c][..2] == [a, b];
    assert [a, b][..1] == [a];
    assert [a][..0] == [];
    calc {
      Sum([a, b, c, d]);
      Sum([a, b, c]) + d;
      Sum([a, b]) + c + d;
      Sum([a]) + b + c + d;
      a + b + c + d;
    }
  }

  /** The journal debits the schedule's interest and ROU amortization. */
  lemma {:induction false} JournalsDebits(leaseId: string, rows: seq<LeaseRow>)
    ensures Sum(Debits(Journals(leaseId, rows))) == RowDebit(rows)
  {
    if rows != [] {
      var n := |rows| - 1;
      var front := Journals(leaseId, rows[..n]);
      var four := RowJournal(leaseId, rows[n]);
      assert Journals(leaseId, rows) == front + four;
      JournalsDebits(leaseId, rows[..n]);
      AppendTotals(front, four);
      RowJournalTotals(leaseId, rows[n]);
    }
  }

  /** The journal credits the schedule's payments and principal. */
  lemma {:induction false} JournalsCredits(leaseId: string, rows: seq<LeaseRow>)
    ensures Sum(Credits(Journals(leaseId, rows))) == RowCredit(rows)
  {
    if rows != [] {
      var n := |rows| - 1;
      var front := Journals(leaseId, rows[..n]);
      var four := RowJournal(leaseId, rows[n]);
      assert Journals(leaseId, rows) == front + four;
      JournalsCredits(leaseId, rows[..n]);
      AppendTotals(front, four);
      RowJournalTotals(leaseId, rows[n]);
    }
  }

  /** Debits and credits of two journals add up. */
  lemma AppendTotals(a: seq<JournalLine>, b: seq<JournalLine>)
    ensures Sum(Debits(a + b)) == Sum(Debits(a)) + Sum(Debits(b))
    ensures Sum(Credits(a + b)) == Sum(Credits(a)) + Sum(Credits(b))
  {
    assert Debits(a + b) == Debits(a) + Debits(b);
    SumAppend(Debits(a), Debits(b));
    assert Credits(a + b) == Credits(a) + Credits(b);
    SumAppend(Credits(a), Credits(b));
  }

  /** One row's four lines debit interest and amortization and credit the
      payment and the principal. */
  lemma RowJournalTotals(leaseId: string, row: LeaseRow)
    ensures Sum(Debits(RowJournal(leaseId, row))) == row.interest + row.rouAmortization
    ensures Sum(Credits(RowJournal(leaseId, row))) == row.payment + row.principal
  {
    var four := RowJournal(leaseId, row);
    assert Debits(four) == [row.interest, row.rouAmortization, 0, 0];
    Sum4(row.interest, row.rouAmortization, 0, 0);
    assert Credits(four) == [0, 0, row.payment, row.principal];
    Sum4(0, 0, row.payment, row.principal);
  }
}
