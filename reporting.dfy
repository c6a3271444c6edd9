/** The arithmetic of the disclosure report: the per-period revenue summed
    over all obligations and listed in period order, the deferred-revenue
    roll-forward, the remaining performance obligations, and the roll-forward
    of deferred commission cost. Amounts are whole cents, so the source's
    `round(..., 2)` after each addition or subtraction changes nothing. */
module Reporting {
  import opened Money
  import opened Periods
  import opened Contracts

  /** The amounts of `m` at the periods `ks`, in that order. */
  function Values(m: Schedule, ks: seq<Period>): (r: seq<int>)
    ensures |r| == |ks| && forall i :: 0 <= i < |ks| ==> r[i] == Get(m, ks[i])
  {
    seq(|ks|, i requires 0 <= i < |ks| => Get(m, ks[i]))
  }

  /** Summing a schedule in period order gives its total. */
  lemma {:induction false} SumSortedValues(u: set<Period>, m: Schedule)
    ensures Sum(Values(m, SortedKeys(u))) == SumOn(u, m)
    decreases |u|
  {
    if u != {} {
      var k := MinOf(u);
      var rest := SortedKeys(u - {k});
      SortedKeysFront(u);
      ValuesFront(m, k, rest);
      SumSortedValues(u - {k}, m);
    }
  }

  /** The sorted periods start with the least one. */
  lemma SortedKeysFront(u: set<Period>)
    requires u != {}
    ensures SortedKeys(u) == [MinOf(u)] + SortedKeys(u - {MinOf(u)})
  {
  }

  lemma ValuesFront(m: Schedule, k: Period, rest: seq<Period>)
    ensures Sum(Values(m, [k] + rest)) == Get(m, k) + Sum(Values(m, rest))
  {
    var vs := Values(m, [k] + rest);
    SumFront(vs);
    assert vs[1..] == Values(m, rest);
  }

  /** The rows `(k, amount)` for the periods `ks`, in that order. */
  function RowsAt(m: Schedule, ks: seq<Period>): (r: seq<(Period, int)>)
    ensures |r| == |ks| && forall i :: 0 <= i < |ks| ==> r[i] == (ks[i], Get(m, ks[i]))
  {
    seq(|ks|, i requires 0 <= i < |ks| => (ks[i], Get(m, ks[i])))
  }

  /** A schedule as `(period, amount)` rows in ascending period order. */
  function Rows(m: Schedule): seq<(Period, int)>
  {
    RowsAt(m, SortedKeys(m.Keys))
  }

  function Amounts(rows: seq<(Period, int)>): (r: seq<int>)
    ensures |r| == |rows| && forall i :: 0 <= i < |rows| ==> r[i] == rows[i].1
  {
    seq(|rows|, i requires 0 <= i < |rows| => rows[i].1)
  }

  /** The rows of a schedule add up to its total. */
  lemma RowsTotal(m: Schedule)
    ensures Sum(Amounts(Rows(m))) == MapSum(m)
  {
    SumSortedValues(m.Keys, m);
    assert Amounts(Rows(m)) == Values(m, SortedKeys(m.Keys));
  }

  /** The part of `m` on the periods of `s`. */
  function Restrict(m: Schedule, s: set<Period>): (r: Schedule)
    ensures r.Keys == m.Keys * s
  {
    map p | p in m && p in s :: m[p]
  }

  /** Two schedules with the same periods and the same amounts are equal. */
  lemma SameSchedule(a: Schedule, b: Schedule)
    requires a.Keys == b.Keys
    requires forall q :: Get(a, q) == Get(b, q)
    ensures a == b
  {
    forall q | q in a ensures a[q] == b[q] {
      assert Get(a, q) == Get(b, q);
    }
  }

  /** `t` is `total` with the amounts of `sched` outside `todo` added in. */
  ghost predicate AddedExcept(t: Schedule, total: Schedule, sched: Schedule, todo: set<Period>)
  {
    && todo <= sched.Keys
    && t.Keys == total.Keys + (sched.Keys - todo)
    && forall q :: Get(t, q) == Get(total, q) + (if q in sched && q !in todo then sched[q] else 0)
  }

  lemma AddStep(t: Schedule, total: Schedule, sched: Schedule, todo: set<Period>, p: Period)
    requires AddedExcept(t, total, sched, todo) && p in todo
    ensures AddedExcept(t[p := Get(t, p) + sched[p]], total, sched, todo - {p})
  {
  }

  lemma AddedEnds(total: Schedule, sched: Schedule)
    ensures AddedExcept(total, total, sched, sched.Keys)
    ensures forall t :: AddedExcept(t, total, sched, {}) ==> t == AddInto(total, sched)
  {
    forall t | AddedExcept(t, total, sched, {}) ensures t == AddInto(total, sched) {
      SameSchedule(t, AddInto(total, sched));
    }
  }

  /** The inner loop of `summarize_schedules`: one obligation's amounts
      added into the running totals, period by period. */
  method AddSchedule(total: Schedule, sched: Schedule) returns (t: Schedule)
    ensures t == AddInto(total, sched)
  {
    AddedEnds(total, sched);
    t := total;
    var todo := sched.Keys;
    while todo != {}
      invariant AddedExcept(t, total, sched, todo)
      decreases |todo|
    {
      NoMember(todo);
      var p :| p in todo;
      AddStep(t, total, sched, todo, p);
      t := t[p := Get(t, p) + sched[p]];
      todo := todo - {p};
    }
  }

  /** `summarize_schedules(schedules)`: every obligation's amounts added per
      period, then listed in period order. */
  method SummarizeSchedules(d: ScheduleDict) returns (rows: seq<(Period, int)>)
    ensures rows == Rows(Flatten(d))
  {
    var total: Schedule := map[];
    var i := 0;
    while i < |d|
      invariant 0 <= i <= |d|
      invariant total == Flatten(d[..i])
    {
      assert d[..i + 1][..i] == d[..i];
      total := AddSchedule(total, d[i].1);
      i := i + 1;
    }
    assert d[..i] == d;
    rows := Rows(total);
  }

  function PeriodsOf(rows: seq<(Period, int)>): (r: seq<Period>)
    ensures |r| == |rows| && forall i :: 0 <= i < |rows| ==> r[i] == rows[i].0
  {
    seq(|rows|, i requires 0 <= i < |rows| => rows[i].0)
  }

  /** The summary lists each period any obligation uses, once and in
      ascending order. */
  lemma SummaryPeriods(d: ScheduleDict)
    ensures PeriodsOf(Rows(Flatten(d))) == SortedKeys(set e, p | e in d && p in e.1 :: p)
  {
    var m := Flatten(d);
    FlattenSums(d);
    var ks := SortedKeys(m.Keys);
    assert PeriodsOf(Rows(m)) == ks;
  }

  /** Each summary row holds the sum over the obligations of their amounts
      in that period. */
  lemma SummaryAmounts(d: ScheduleDict)
    ensures forall i :: 0 <= i < |Rows(Flatten(d))| ==> Rows(Flatten(d))[i].1 == AmountAt(d, Rows(Flatten(d))[i].0)
  {
    var m := Flatten(d);
    FlattenSums(d);
    forall i | 0 <= i < |Rows(m)| ensures Rows(m)[i].1 == AmountAt(d, Rows(m)[i].0) {
      assert Rows(m)[i].1 == Get(m, Rows(m)[i].0);
    }
  }

  /** The summary totals the sum of the obligations' totals. */
  lemma SummaryTotal(d: ScheduleDict)
    ensures Sum(Amounts(Rows(Flatten(d)))) == TotalOf(d)
  {
    FlattenSums(d);
    RowsTotal(Flatten(d));
  }

  lemma FlattenTotal(d: ScheduleDict)
    ensures MapSum(Flatten(d)) == TotalOf(d)
  {
    FlattenSums(d);
  }

  /** Closing balances of a roll-forward: each period's closing is the
      opening balance less everything taken out so far. */
  function Rollforward(opening: int, amounts: seq<int>): (r: seq<int>)
    ensures |r| == |amounts|
  {
    if amounts == [] then []
    else Rollforward(opening, amounts[..|amounts| - 1]) + [opening - Sum(amounts)]
  }

  lemma {:induction false} RollforwardClosing(opening: int, amounts: seq<int>)
    ensures forall k :: 0 <= k < |amounts| ==> Rollforward(opening, amounts)[k] == opening - Sum(amounts[..k + 1])
  {
    if amounts != [] {
      var n := |amounts| - 1;
      RollforwardClosing(opening, amounts[..n]);
      forall k | 0 <= k < |amounts|
        ensures Rollforward(opening, amounts)[k] == opening - Sum(amounts[..k + 1])
      {
        if k < n {
          assert amounts[..n][..k + 1] == amounts[..k + 1];
        } else {
          assert amounts[..k + 1] == amounts;
        }
      }
    }
  }

  /** The roll-forward loop: `balance = round(balance - amount, 2)` per row. */
  method RollForward(opening: int, amounts: seq<int>) returns (closings: seq<int>)
    ensures closings == Rollforward(opening, amounts)
  {
    var balance := opening;
    closings := [];
    var i := 0;
    while i < |amounts|
      invariant 0 <= i <= |amounts|
      invariant closings == Rollforward(opening, amounts[..i])
      invariant balance == opening - Sum(amounts[..i])
    {
      assert amounts[..i + 1][..i] == amounts[..i];
      balance := balance - amounts[i];
      closings := closings + [balance];
      i := i + 1;
    }
    assert amounts[..i] == amounts;
  }

  /** Deferred revenue at the end of each period, from the transaction price. */
  function DeferredRollforward(price: int, d: ScheduleDict): seq<int>
  {
    Rollforward(price, Amounts(Rows(Flatten(d))))
  }

  /** `tp - sum(total_sched.values())`: the remaining performance obligations. */
  function Rpo(price: int, d: ScheduleDict): int
  {
    price - MapSum(Flatten(d))
  }

  /** The remaining performance obligations are the price less all revenue
      of all obligations. */
  lemma RpoIsUnrecognised(price: int, d: ScheduleDict)
    ensures Rpo(price, d) == price - TotalOf(d)
  {
    FlattenTotal(d);
  }

  /** A roll-forward of a schedule from `opening`: each closing balance is the
      opening less the amounts so far in period order, and the last one is the
      opening less the schedule's total. */
  lemma ScheduleRollforward(opening: int, m: Schedule)
    ensures forall k :: 0 <= k < |Rows(m)| ==>
      Rollforward(opening, Amounts(Rows(m)))[k] == opening - Sum(Amounts(Rows(m))[..k + 1])
    ensures |Rows(m)| > 0 ==> Rollforward(opening, Amounts(Rows(m)))[|Rows(m)| - 1] == opening - MapSum(m)
  {
    RowsTotal(m);
    var a := Amounts(Rows(m));
    RollforwardClosing(opening, a);
    assert a[..|a|] == a;
  }

  /** Deferred revenue falls by each period's revenue in period order and
      ends at the remaining performance obligations. */
  lemma DeferredEndsAtRpo(price: int, d: ScheduleDict)
    ensures forall k :: 0 <= k < |Rows(Flatten(d))| ==>
      DeferredRollforward(price, d)[k] == price - Sum(Amounts(Rows(Flatten(d)))[..k + 1])
    ensures |Rows(Flatten(d))| > 0 ==> DeferredRollforward(price, d)[|Rows(Flatten(d))| - 1] == Rpo(price, d)
  {
    ScheduleRollforward(price, Flatten(d));
  }

  /** Deferred commission cost at the end of each period, from the commission total. */
  function CommissionRollforward(comm: Schedule): seq<int>
  {
    Rollforward(MapSum(comm), Amounts(Rows(comm)))
  }

  /** The deferred commission cost is fully expensed after the last period. */
  lemma CommissionFullyExpensed(comm: Schedule)
    ensures comm != map[] ==> CommissionRollforward(comm)[|comm.Keys| - 1] == 0
  {
    if comm != map[] {
      ScheduleRollforward(MapSum(comm), comm);
      assert |comm.Keys| > 0 by {
        NoMember(comm.Keys);
        var k :| k in comm.Keys;
      }
    }
  }
}
