/** Expense helpers: a keyword classifier of expense descriptions and the
    straight amortization of a prepaid expense over whole months. Amounts are
    whole cents; a row's period is the month its first day falls in (the
    `"YYYY-MM"` text of that day). */
module Expenses {
  import opened Money
  import opened Periods
  import opened Calendar
  import opened Text

  datatype Classification = Classification(category: string, amount: int, note: string)

  const DefaultNote := "Default classification (mock)."

  predicate IsCogs(t: string)
  {
    Contains(t, "hosting") || Contains(t, "warehouse")
  }

  predicate IsCapEx(t: string)
  {
    Contains(t, "equipment") || Contains(t, "server")
  }

  predicate IsDeferred(t: string)
  {
    Contains(t, "annual") || Contains(t, "prepaid")
  }

  /** `classify_expense`: the label starts as SG&A and each keyword test that
      succeeds overwrites it, so the last successful test decides. */
  function ClassifyExpense(text: string, amount: int): (r: Classification)
    ensures r.amount == amount && r.note == DefaultNote
    ensures IsDeferred(Lower(text)) ==> r.category == "Deferred"
    ensures !IsDeferred(Lower(text)) && IsCapEx(Lower(text)) ==> r.category == "CapEx"
    ensures !IsDeferred(Lower(text)) && !IsCapEx(Lower(text)) && IsCogs(Lower(text)) ==> r.category == "COGS"
    ensures !IsDeferred(Lower(text)) && !IsCapEx(Lower(text)) && !IsCogs(Lower(text)) ==> r.category == "SG&A"
  {
    var t := Lower(text);
    var category := "SG&A";
    var category := if IsCogs(t) then "COGS" else category;
    var category := if IsCapEx(t) then "CapEx" else category;
    var category := if IsDeferred(t) then "Deferred" else category;
    Classification(category, amount, DefaultNote)
  }

  /** The classification ignores letter case. */
  lemma ClassifyIgnoresCase(text: string, amount: int)
    ensures ClassifyExpense(Lower(text), amount) == ClassifyExpense(text, amount)
  {
    LowerIdempotent(text);
  }

  /** A later test wins over an earlier one: a prepaid server hosting
      contract is Deferred. */
  lemma ClassifyDeferredWins()
    ensures ClassifyExpense("Prepaid server hosting", 100).category == "Deferred"
  {
    var t := Lower("Prepaid server hosting");
    assert t[..7] == "prepaid";
    ContainsAt(t, "prepaid", 0);
  }

  /** Server hosting is CapEx, not COGS: "server" is tested after "hosting". */
  lemma ClassifyCapExOverCogs()
    ensures ClassifyExpense("Server hosting", 100).category == "CapEx"
  {
    assert Lower("Server hosting") == "server hosting";
    ServerHostingIsCapEx();
  }

  lemma ServerHostingIsCapEx()
    ensures IsCapEx("server hosting") && !IsDeferred("server hosting")
  {
    ContainsAt("server hosting", "server", 0);
    AbsentFirstChar("server hosting", "annual");
    AbsentFirstChar("server hosting", "prepaid");
  }

  /** A row of the prepaid schedule. */
  datatype PrepaidRow = PrepaidRow(period: Period, date: Date, expense: int, remaining: int)

  /** `round(amount / months, 2)`, or 0 when `months <= 0`. */
  function PerMonth(amount: int, months: int): int
  {
    if months > 0 then RoundHalfEven(amount as real / months as real) else 0
  }

  /** Row `i` of `amortize_prepaid`: the month `i` months after the start,
      the rounded monthly share, and the amount less `i + 1` shares. */
  function PrepaidRowAt(amount: int, months: int, start: Date, i: int): PrepaidRow
  {
    var per := PerMonth(amount, months);
    PrepaidRow(MonthIndex(start) + i, FirstOfMonth(MonthIndex(start) + i), per, amount - per * (i + 1))
  }

  /** `amortize_prepaid`: `months` rows from the start month (none when
      `months <= 0`). */
  function PrepaidRows(amount: int, months: int, start: Date): (r: seq<PrepaidRow>)
    ensures |r| == if months > 0 then months else 0
  {
    var n := if months > 0 then months else 0;
    seq(n, i requires 0 <= i < n => PrepaidRowAt(amount, months, start, i))
  }

  /** The loop of `amortize_prepaid`, advancing year and month by hand. */
  method AmortizePrepaid(amount: int, months: int, start: Date) returns (out: seq<PrepaidRow>)
    requires start.Valid()
    ensures out == PrepaidRows(amount, months, start)
  {
    var per := PerMonth(amount, months);
    out := [];
    var y, m := start.year, start.month;
    var i := 0;
    while i < months
      invariant 0 <= i <= (if months > 0 then months else 0)
      invariant 1 <= m <= 12 && y * 12 + (m - 1) == MonthIndex(start) + i
      invariant |out| == i && forall k :: 0 <= k < i ==> out[k] == PrepaidRowAt(amount, months, start, k)
    {
      FirstOfMonthUnique(Date(y, m, 1));
      out := out + [PrepaidRow(y * 12 + (m - 1), Date(y, m, 1), per, amount - per * (i + 1))];
      m := m + 1;
      if m > 12 {
        m := 1;
        y := y + 1;
      }
      i := i + 1;
    }
    assert |out| == |PrepaidRows(amount, months, start)|;
  }

  function Expenses(rows: seq<PrepaidRow>): (r: seq<int>)
    ensures |r| == |rows| && forall i :: 0 <= i < |rows| ==> r[i] == rows[i].expense
  {
    seq(|rows|, i requires 0 <= i < |rows| => rows[i].expense)
  }

  lemma {:induction false} SumConstant(c: int, n: nat)
    ensures Sum(seq(n, _ => c)) == c * n
  {
    if n > 0 {
      assert seq(n, _ => c)[..n - 1] == seq(n - 1, _ => c);
      SumConstant(c, n - 1);
    }
  }

  /** The rows run over consecutive months from the start month, each dated
      the first of its month, each expensing the same rounded share, and each
      showing the amount less everything expensed so far. */
  lemma PrepaidShape(amount: int, months: int, start: Date)
    ensures var r := PrepaidRows(amount, months, start);
      forall i :: 0 <= i < |r| ==>
        && r[i].period == MonthIndex(start) + i
        && r[i].date.day == 1 && MonthIndex(r[i].date) == r[i].period
        && r[i].expense == PerMonth(amount, months)
        && r[i].remaining == amount - Sum(Expenses(r)[..i + 1])
  {
    var r := PrepaidRows(amount, months, start);
    var per := PerMonth(amount, months);
    forall i | 0 <= i < |r| ensures r[i].remaining == amount - Sum(Expenses(r)[..i + 1]) {
      assert Expenses(r)[..i + 1] == seq(i + 1, _ => per);
      SumConstant(per, i + 1);
    }
  }

  /** Text cannot occur where its first character does not. */
  lemma AbsentFirstChar(s: string, sub: string)
    requires sub != [] && sub[0] !in s
    ensures !Contains(s, sub)
  {
    forall i | 0 <= i <= |s| ensures !OccursAt(s, sub, i) {
      if i + |sub| <= |s| {
        assert s[i..i + |sub|][0] == s[i];
      }
    }
  }

  lemma MulLe(a: real, b: real, c: real)
    requires a <= b && c >= 0.0
    ensures a * c <= b * c
  {
  }

  /** Without a true-up the schedule misses the amount by the rounding of the
      share times the number of months: the last remaining balance is at most
      half a cent per month away from zero. */
  lemma PrepaidDrift(amount: int, months: int, start: Date)
    requires months > 0
    ensures var r := PrepaidRows(amount, months, start);
      2 * Abs(r[months - 1].remaining) <= months
  {
    var per := PerMonth(amount, months);
    var n := months as real;
    ShareTimesCount(amount as real, n, per as real);
    assert (per * months) as real == per as real * n;
  }

  /** A share within half of `a / n`, taken `n` times, is within `n / 2` of `a`. */
  lemma ShareTimesCount(a: real, n: real, p: real)
    requires n > 0.0 && a / n - 0.5 <= p <= a / n + 0.5
    ensures 2.0 * a - n <= 2.0 * (p * n) <= 2.0 * a + n
  {
    var x := a / n;
    assert x * n == a;
    MulLe(p, x + 0.5, n);
    MulLe(x - 0.5, p, n);
    calc {
      2.0 * (p * n);
    <= 2.0 * ((x + 0.5) * n);
    == 2.0 * (x * n) + n;
    == 2.0 * a + n;
    }
    calc {
      2.0 * (p * n);
    >= 2.0 * ((x - 0.5) * n);
    == 2.0 * (x * n) - n;
    == 2.0 * a - n;
    }
  }

  /** 200.00 over 3 months: the share is 66.67, and after three of them the
      remaining balance is -0.01. */
  lemma PrepaidOvershoot(start: Date)
    ensures var r := PrepaidRows(20000, 3, start);
      |r| == 3 && r[2].expense == 6667 && r[2].remaining == -1
  {
    var x := 20000 as real / 3 as real;
    assert x.Floor == 6666;
    assert PerMonth(20000, 3) == 6667;
  }

  /** The schedule with the last row absorbing the rounding, as every other
      builder here does. */
  function CorrectedPrepaidRows(amount: int, months: int, start: Date): (r: seq<PrepaidRow>)
    ensures |r| == |PrepaidRows(amount, months, start)|
  {
    var rows := PrepaidRows(amount, months, start);
    if months <= 0 then rows
    else
      var per := PerMonth(amount, months);
      var last := rows[months - 1];
      rows[months - 1 := PrepaidRow(last.period, last.date, amount - per * (months - 1), 0)]
  }

  /** With the true-up, every remaining balance is the amount less what has
      been expensed, the schedule expenses exactly the amount, and the last
      remaining balance is zero. */
  lemma CorrectedPrepaidTiesOut(amount: int, months: int, start: Date)
    requires months > 0
    ensures var r := CorrectedPrepaidRows(amount, months, start);
      && (forall i :: 0 <= i < |r| ==> r[i].remaining == amount - Sum(Expenses(r)[..i + 1]))
      && Sum(Expenses(r)) == amount
      && r[months - 1].remaining == 0
  {
    var r := CorrectedPrepaidRows(amount, months, start);
    var rows := PrepaidRows(amount, months, start);
    var per := PerMonth(amount, months);
    PrepaidShape(amount, months, start);
    forall i | 0 <= i < |r| ensures r[i].remaining == amount - Sum(Expenses(r)[..i + 1]) {
      if i < months - 1 {
        assert Expenses(r)[..i + 1] == Expenses(rows)[..i + 1];
      } else {
        var e := Expenses(r);
        forall j | 0 <= j < i ensures e[j] == per {
          assert r[j] == rows[j];
        }
        assert e[..i] == seq(months - 1, _ => per);
        SumConstant(per, months - 1);
        assert e[..i + 1][..i] == e[..i];
      }
    }
    assert Expenses(r)[..months] == Expenses(r);
  }
}
