/** The effective-interest roll of a significant financing component: the
    carrying amount accrues interest at a monthly rate each period and is
    reduced by that period's payment. Amounts are whole cents; the monthly
    rate is `annual / 12`. Periods are processed in ascending order. */
module EffectiveInterest {
  import opened Money
  import opened Periods

  /** One period of the roll. */
  datatype InterestRow = InterestRow(interest: int, payment: int, closingBalance: int, monthlyRate: real)

  /** `monthly_rate_from_annual` */
  function MonthlyRateFromAnnual(annual: real): (r: real)
    ensures 12.0 * r == annual
  {
    annual / 12.0
  }

  /** One period from opening balance `bal`:
      `interest = round(bal * r, 2)`, `bal = round(bal + interest - pay, 2)`. */
  function Step(bal: int, payment: int, r: real): (row: InterestRow)
    ensures Scale(bal, r) - 0.5 <= row.interest as real <= Scale(bal, r) + 0.5
    ensures row.closingBalance == bal + row.interest - row.payment
    ensures row.payment == payment && row.monthlyRate == r
  {
    var interest := RoundHalfEven(Scale(bal, r));
    RoundWhole(bal + interest - payment);
    InterestRow(interest, payment, RoundHalfEven((bal + interest - payment) as real), r)
  }

  /** The balance after the rows so far: the last closing balance, or the
      initial carrying amount before the first period. */
  function Closing(initial: int, rows: seq<InterestRow>): int
  {
    if rows == [] then initial else rows[|rows| - 1].closingBalance
  }

  /** The rows of the periods `ps`, in order, each opening at the previous closing. */
  function Roll(initial: int, ps: seq<Period>, payments: Schedule, r: real): (rows: seq<InterestRow>)
    ensures |rows| == |ps|
  {
    if ps == [] then []
    else
      var pre := Roll(initial, ps[..|ps| - 1], payments, r);
      pre + [Step(Closing(initial, pre), Get(payments, ps[|ps| - 1]), r)]
  }

  /** `{p: row}` for periods paired with their rows. */
  function Keyed(ps: seq<Period>, rows: seq<InterestRow>): (m: map<Period, InterestRow>)
    requires |ps| == |rows|
    ensures m.Keys == set p | p in ps
  {
    if ps == [] then map[]
    else Keyed(ps[..|ps| - 1], rows[..|rows| - 1])[ps[|ps| - 1] := rows[|rows| - 1]]
  }

  /** `effective_interest_schedule` with a given annual rate. */
  function InterestSchedule(initialCarry: int, payments: Schedule, annualRate: real): (out: map<Period, InterestRow>)
    ensures out.Keys == payments.Keys
    ensures payments == map[] ==> out == map[]
  {
    var ps := SortedKeys(payments.Keys);
    Keyed(ps, Roll(initialCarry, ps, payments, MonthlyRateFromAnnual(annualRate)))
  }

  /** With strictly ascending periods, each period is keyed to its own row. */
  lemma KeyedAt(ps: seq<Period>, rows: seq<InterestRow>)
    requires |ps| == |rows|
    requires forall i, j :: 0 <= i < j < |ps| ==> ps[i] < ps[j]
    ensures forall i :: 0 <= i < |ps| ==> Keyed(ps, rows)[ps[i]] == rows[i]
  {
    forall i | 0 <= i < |ps| ensures Keyed(ps, rows)[ps[i]] == rows[i] {
      KeyedOne(ps, rows, i);
    }
  }

  lemma {:induction false} KeyedOne(ps: seq<Period>, rows: seq<InterestRow>, i: nat)
    requires |ps| == |rows| && i < |ps|
    requires forall j :: i < j < |ps| ==> ps[j] != ps[i]
    ensures Keyed(ps, rows)[ps[i]] == rows[i]
  {
    var n := |ps| - 1;
    assert Keyed(ps, rows) == Keyed(ps[..n], rows[..n])[ps[n] := rows[n]];
    if i < n {
      var pre := ps[..n];
      assert pre[i] == ps[i] && rows[..n][i] == rows[i] && ps[n] != ps[i];
      assert forall j :: i < j < n ==> pre[j] == ps[j];
      KeyedOne(pre, rows[..n], i);
    }
  }

  /** The balance a period opens with: the previous period's closing
      balance, or the initial carrying amount for the first period. */
  function Opening(initial: int, rows: seq<InterestRow>, k: nat): int
    requires k <= |rows|
  {
    if k == 0 then initial else rows[k - 1].closingBalance
  }

  /** Row `k` of the roll is one step from the balance it opens with, on
      period `k`'s payment. */
  lemma {:induction false} RollAt(initial: int, ps: seq<Period>, payments: Schedule, r: real, k: nat)
    requires k < |ps|
    ensures var rows := Roll(initial, ps, payments, r);
      rows[k] == Step(Opening(initial, rows, k), Get(payments, ps[k]), r)
  {
    var n := |ps| - 1;
    var pre := Roll(initial, ps[..n], payments, r);
    var rows := Roll(initial, ps, payments, r);
    assert rows[..n] == pre;
    if k < n {
      RollAt(initial, ps[..n], payments, r, k);
      assert rows[k] == pre[k] && ps[k] == ps[..n][k];
      assert k > 0 ==> rows[k - 1] == pre[k - 1];
    } else {
      assert k > 0 ==> rows[k - 1] == pre[k - 1];
    }
  }

  /** The roll: each period's payment is its own, the interest is within half
      a cent of the opening balance times the monthly rate, and the opening
      balance of a period is the closing balance of the one before it. */
  lemma RollChains(initial: int, ps: seq<Period>, payments: Schedule, r: real)
    ensures var rows := Roll(initial, ps, payments, r);
      forall k :: 0 <= k < |rows| ==>
        && rows[k].payment == Get(payments, ps[k])
        && rows[k].monthlyRate == r
        && Scale(Opening(initial, rows, k), r) - 0.5 <= rows[k].interest as real <= Scale(Opening(initial, rows, k), r) + 0.5
        && rows[k].closingBalance == Opening(initial, rows, k) + rows[k].interest - rows[k].payment
  {
    forall k | 0 <= k < |ps| {
      RollAt(initial, ps, payments, r, k);
    }
  }

  /** Rolling one more period appends one step from the last closing balance. */
  lemma RollStep(initial: int, ps: seq<Period>, payments: Schedule, r: real, i: nat)
    requires i < |ps|
    ensures Roll(initial, ps[..i + 1], payments, r)
         == Roll(initial, ps[..i], payments, r) + [Step(Closing(initial, Roll(initial, ps[..i], payments, r)), Get(payments, ps[i]), r)]
  {
    assert ps[..i + 1][..i] == ps[..i];
  }

  function Interests(rows: seq<InterestRow>): (r: seq<int>)
    ensures |r| == |rows|
  {
    if rows == [] then [] else Interests(rows[..|rows| - 1]) + [rows[|rows| - 1].interest]
  }

  function Payments(rows: seq<InterestRow>): (r: seq<int>)
    ensures |r| == |rows|
  {
    if rows == [] then [] else Payments(rows[..|rows| - 1]) + [rows[|rows| - 1].payment]
  }

  /** The balance telescopes: the final closing balance is the initial
      carrying amount plus all interest accrued less all payments made. */
  lemma {:induction false} RollTelescopes(initial: int, ps: seq<Period>, payments: Schedule, r: real)
    ensures var rows := Roll(initial, ps, payments, r);
      Closing(initial, rows) == initial + Sum(Interests(rows)) - Sum(Payments(rows))
  {
    if ps != [] {
      var n := |ps| - 1;
      var pre := Roll(initial, ps[..n], payments, r);
      RollTelescopes(initial, ps[..n], payments, r);
      var rows := Roll(initial, ps, payments, r);
      assert rows[..n] == pre;
    }
  }

  /** At a zero rate no interest accrues, and the carrying amount ends at
      the initial amount less the payments. */
  lemma {:induction false} ZeroRateRepays(initial: int, ps: seq<Period>, payments: Schedule)
    ensures var rows := Roll(initial, ps, payments, 0.0);
      && (forall k :: 0 <= k < |rows| ==> rows[k].interest == 0)
      && Closing(initial, rows) == initial - Sum(Payments(rows))
  {
    if ps != [] {
      var n := |ps| - 1;
      ZeroRateRepays(initial, ps[..n], payments);
      var rows := Roll(initial, ps, payments, 0.0);
      var pre := Roll(initial, ps[..n], payments, 0.0);
      assert rows[..n] == pre;
      var row := rows[n];
      assert Scale(Closing(initial, pre), 0.0) == 0.0;
      assert row.interest == 0;
    }
  }

  /** The schedule: one row per payment period, carrying that period's
      payment and the monthly rate, balances rolling in period order. */
  lemma ScheduleRows(initialCarry: int, payments: Schedule, annualRate: real)
    ensures var ps := SortedKeys(payments.Keys);
      var rows := Roll(initialCarry, ps, payments, MonthlyRateFromAnnual(annualRate));
      forall i :: 0 <= i < |ps| ==>
        && InterestSchedule(initialCarry, payments, annualRate)[ps[i]] == rows[i]
        && rows[i].payment == payments[ps[i]]
        && rows[i].monthlyRate == annualRate / 12.0
  {
    var ps := SortedKeys(payments.Keys);
    var r := MonthlyRateFromAnnual(annualRate);
    var rows := Roll(initialCarry, ps, payments, r);
    KeyedAt(ps, rows);
    forall i | 0 <= i < |ps| ensures rows[i].payment == payments[ps[i]] && rows[i].monthlyRate == r {
      RollAt(initialCarry, ps, payments, r, i);
      assert ps[i] in payments.Keys;
    }
  }

  /** Pairing one more period with one more row. */
  lemma KeyedStep(ps: seq<Period>, i: nat, rows: seq<InterestRow>, row: InterestRow)
    requires i < |ps| && |rows| == i
    ensures Keyed(ps[..i + 1], rows + [row]) == Keyed(ps[..i], rows)[ps[i] := row]
  {
    var ps' := ps[..i + 1];
    var rows' := rows + [row];
    assert ps'[..|ps'| - 1] == ps[..i];
    assert rows'[..|rows'| - 1] == rows;
    assert ps'[|ps'| - 1] == ps[i] && rows'[|rows'| - 1] == row;
    assert Keyed(ps', rows') == Keyed(ps'[..|ps'| - 1], rows'[..|rows'| - 1])[ps'[|ps'| - 1] := rows'[|rows'| - 1]];
  }

  /** The loop of `effective_interest_schedule`. */
  method EffectiveInterestSchedule(initialCarry: int, payments: Schedule, annualRate: real)
    returns (out: map<Period, InterestRow>)
    ensures out == InterestSchedule(initialCarry, payments, annualRate)
  {
    var periods := SortedKeys(payments.Keys);
    if |periods| == 0 {
      return map[];
    }
    var r := MonthlyRateFromAnnual(annualRate);
    var bal := initialCarry;
    out := map[];
    ghost var rows: seq<InterestRow> := [];
    var i := 0;
    while i < |periods|
      invariant 0 <= i <= |periods|
      invariant rows == Roll(initialCarry, periods[..i], payments, r)
      invariant bal == Closing(initialCarry, rows)
      invariant out == Keyed(periods[..i], rows)
    {
      var p := periods[i];
      var interest := RoundHalfEven(Scale(bal, r));
      var pay := payments[p];
      bal := RoundHalfEven((bal + interest - pay) as real);
      var row := InterestRow(interest, pay, bal, r);
      assert row == Step(Closing(initialCarry, rows), Get(payments, p), r);
      KeyedStep(periods, i, rows, row);
      RollStep(initialCarry, periods, payments, r, i);
      rows := rows + [row];
      out := out[p := row];
      i := i + 1;
    }
    assert periods[..i] == periods;
  }
}
