/** The journal-entry ledger: an append-only table of rows (a header, then
    one row per posting) and the two posting routines that turn a revenue
    schedule and a commission schedule into postings, one per period in
    ascending period order. The ledger's file is modelled as the sequence of
    its rows. */
module Posting {
  import opened Wrappers
  import opened Money
  import opened Periods
  import opened Contracts
  import opened Reporting

  /** A row of the ledger: the column header, or a posting whose amount is
      written with two decimals (exact, as amounts are whole cents). */
  datatype Row =
    | Header
    | Entry(period: Period, debit: string, credit: string, amount: int, memo: string, contractId: string)

  /** What `post` returns: `{'ok': True, 'path': ...}`. */
  datatype Receipt = Receipt(ok: bool, path: string)

  const RevenueAccount := "4000-Revenue"
  const DeferredRevenueAccount := "2100-Deferred Revenue"
  const CommissionExpenseAccount := "6100-Commission Expense"
  const DeferredCostAccount := "1305-Deferred Contract Costs"

  class Ledger {
    const path: string
    var rows: seq<Row>

    /** Opening the ledger writes the header only when the file does not yet
        exist; `existing` is the file's rows when it does. */
    constructor(path: string, existing: Option<seq<Row>>)
      ensures this.path == path
      ensures existing.None? ==> rows == [Header]
      ensures existing.Some? ==> rows == existing.value
    {
      this.path := path;
      rows := if existing.None? then [Header] else existing.value;
    }

    /** `post`: appends exactly one row. */
    method Post(period: Period, debit: string, credit: string, amount: int, memo: string, contractId: string)
      returns (r: Receipt)
      modifies this
      ensures rows == old(rows) + [Entry(period, debit, credit, amount, memo, contractId)]
      ensures r == Receipt(true, path)
    {
      rows := rows + [Entry(period, debit, credit, amount, memo, contractId)];
      r := Receipt(true, path);
    }
  }

  /** The postings for the rows `(period, amount)`, each debiting `debit` and
      crediting `credit`. */
  function Postings(sched: seq<(Period, int)>, debit: string, credit: string, memo: string, cid: string): (r: seq<Row>)
    ensures |r| == |sched|
    ensures forall i :: 0 <= i < |sched| ==> r[i] == Entry(sched[i].0, debit, credit, sched[i].1, memo, cid)
  {
    seq(|sched|, i requires 0 <= i < |sched| => Entry(sched[i].0, debit, credit, sched[i].1, memo, cid))
  }

  /** Posts the rows in order, one ledger row per schedule row. */
  method PostRows(ledger: Ledger, sched: seq<(Period, int)>, debit: string, credit: string, memo: string, cid: string)
    returns (results: seq<Receipt>)
    modifies ledger
    ensures ledger.rows == old(ledger.rows) + Postings(sched, debit, credit, memo, cid)
    ensures results == seq(|sched|, _ => Receipt(true, ledger.path))
  {
    results := [];
    var i := 0;
    while i < |sched|
      invariant 0 <= i <= |sched|
      invariant ledger.rows == old(ledger.rows) + Postings(sched[..i], debit, credit, memo, cid)
      invariant results == seq(i, _ => Receipt(true, ledger.path))
    {
      var receipt := ledger.Post(sched[i].0, debit, credit, sched[i].1, memo, cid);
      assert Postings(sched[..i + 1], debit, credit, memo, cid)
        == Postings(sched[..i], debit, credit, memo, cid) + [Entry(sched[i].0, debit, credit, sched[i].1, memo, cid)];
      results := results + [receipt];
      i := i + 1;
    }
    assert sched[..i] == sched;
  }

  function RevenueMemo(cid: string): string
  {
    "Revenue recognition " + cid
  }

  function CommissionMemo(cid: string): string
  {
    "Commission amortization " + cid
  }

  /** The rows `post_revenue_schedule` appends. */
  function RevenuePostings(cid: string, d: ScheduleDict, revenueAcct: string, deferredAcct: string): seq<Row>
  {
    Postings(Rows(Flatten(d)), deferredAcct, revenueAcct, RevenueMemo(cid), cid)
  }

  /** `post_revenue_schedule`: the amounts of all obligations summed per
      period, then posted in ascending period order. */
  method PostRevenueSchedule(ledger: Ledger, cid: string, d: ScheduleDict,
                             revenueAcct: string := RevenueAccount, deferredAcct: string := DeferredRevenueAccount)
    returns (results: seq<Receipt>)
    modifies ledger
    ensures ledger.rows == old(ledger.rows) + RevenuePostings(cid, d, revenueAcct, deferredAcct)
    ensures |results| == |RevenuePostings(cid, d, revenueAcct, deferredAcct)|
  {
    var totals := SummarizeSchedules(d);
    results := PostRows(ledger, totals, deferredAcct, revenueAcct, RevenueMemo(cid), cid);
  }

  /** The rows `post_commission_schedule` appends. */
  function CommissionPostings(cid: string, comm: Schedule, expenseAcct: string, deferredCostAcct: string): seq<Row>
  {
    Postings(Rows(comm), expenseAcct, deferredCostAcct, CommissionMemo(cid), cid)
  }

  /** `post_commission_schedule`: one posting per period in ascending order. */
  method PostCommissionSchedule(ledger: Ledger, cid: string, comm: Schedule,
                                expenseAcct: string := CommissionExpenseAccount, deferredCostAcct: string := DeferredCostAccount)
    returns (results: seq<Receipt>)
    modifies ledger
    ensures ledger.rows == old(ledger.rows) + CommissionPostings(cid, comm, expenseAcct, deferredCostAcct)
    ensures |results| == |comm.Keys|
  {
    results := PostRows(ledger, Rows(comm), expenseAcct, deferredCostAcct, CommissionMemo(cid), cid);
  }

  /** The periods of the postings among `rows` (a header counts period 0). */
  function PostedPeriods(rows: seq<Row>): (r: seq<Period>)
    ensures |r| == |rows|
    ensures forall i :: 0 <= i < |rows| ==> r[i] == (if rows[i].Entry? then rows[i].period else 0)
  {
    seq(|rows|, i requires 0 <= i < |rows| => if rows[i].Entry? then rows[i].period else 0)
  }

  /** The amounts of the postings among `rows` (a header counts nothing). */
  function EntryAmounts(rows: seq<Row>): (r: seq<int>)
    ensures |r| == |rows|
    ensures forall i :: 0 <= i < |rows| ==> r[i] == (if rows[i].Entry? then rows[i].amount else 0)
  {
    seq(|rows|, i requires 0 <= i < |rows| => if rows[i].Entry? then rows[i].amount else 0)
  }

  /** Posting schedule rows keeps their periods and amounts, in order. */
  lemma PostingsKeepRows(sched: seq<(Period, int)>, debit: string, credit: string, memo: string, cid: string)
    ensures PostedPeriods(Postings(sched, debit, credit, memo, cid)) == PeriodsOf(sched)
    ensures EntryAmounts(Postings(sched, debit, credit, memo, cid)) == Amounts(sched)
  {
  }

  /** Revenue is posted once per period any obligation uses, in ascending
      period order. */
  lemma RevenuePostingsPeriods(cid: string, d: ScheduleDict, revenueAcct: string, deferredAcct: string)
    ensures PostedPeriods(RevenuePostings(cid, d, revenueAcct, deferredAcct)) == SortedKeys(set e, p | e in d && p in e.1 :: p)
  {
    PostingsKeepRows(Rows(Flatten(d)), deferredAcct, revenueAcct, RevenueMemo(cid), cid);
    SummaryPeriods(d);
  }

  /** Each revenue posting debits deferred revenue and credits revenue with
      the sum over the obligations of their amounts in its period. */
  lemma RevenuePostingsAmounts(cid: string, d: ScheduleDict, revenueAcct: string, deferredAcct: string)
    ensures var r := RevenuePostings(cid, d, revenueAcct, deferredAcct);
      forall i :: 0 <= i < |r| ==>
        && r[i].Entry?
        && r[i].debit == deferredAcct && r[i].credit == revenueAcct
        && r[i].amount == AmountAt(d, r[i].period)
        && r[i].memo == RevenueMemo(cid) && r[i].contractId == cid
  {
    SummaryAmounts(d);
  }

  /** The revenue postings total the obligations' totals. */
  lemma RevenuePostingsTotal(cid: string, d: ScheduleDict, revenueAcct: string, deferredAcct: string)
    ensures Sum(EntryAmounts(RevenuePostings(cid, d, revenueAcct, deferredAcct))) == TotalOf(d)
  {
    PostingsKeepRows(Rows(Flatten(d)), deferredAcct, revenueAcct, RevenueMemo(cid), cid);
    SummaryTotal(d);
  }

  /** Commission is posted once per period of the schedule in ascending
      order, each posting debiting the expense account and crediting
      deferred contract costs with that period's amount. */
  lemma CommissionPostingsShape(cid: string, comm: Schedule, expenseAcct: string, deferredCostAcct: string)
    ensures var r := CommissionPostings(cid, comm, expenseAcct, deferredCostAcct);
      && PostedPeriods(r) == SortedKeys(comm.Keys)
      && (forall i :: 0 <= i < |r| ==> r[i].Entry? && r[i].amount == Get(comm, r[i].period))
      && (forall i :: 0 <= i < |r| ==> r[i].debit == expenseAcct && r[i].credit == deferredCostAcct)
  {
    PostingsAt(comm, SortedKeys(comm.Keys), expenseAcct, deferredCostAcct, CommissionMemo(cid), cid);
  }

  /** Posting the rows of `m` at the periods `ks` posts those periods, in
      that order, each with its amount in `m`. */
  lemma PostingsAt(m: Schedule, ks: seq<Period>, debit: string, credit: string, memo: string, cid: string)
    ensures var r := Postings(RowsAt(m, ks), debit, credit, memo, cid);
      && PostedPeriods(r) == ks
      && (forall i :: 0 <= i < |r| ==> r[i].Entry? && r[i].amount == Get(m, r[i].period))
      && (forall i :: 0 <= i < |r| ==> r[i].debit == debit && r[i].credit == credit)
  {
    var r := Postings(RowsAt(m, ks), debit, credit, memo, cid);
    assert |r| == |ks| && forall i :: 0 <= i < |ks| ==> r[i] == Entry(ks[i], debit, credit, Get(m, ks[i]), memo, cid);
    assert PostedPeriods(r) == ks;
  }

  /** The commission postings total the commission schedule. */
  lemma CommissionPostingsTotal(cid: string, comm: Schedule, expenseAcct: string, deferredCostAcct: string)
    ensures Sum(EntryAmounts(CommissionPostings(cid, comm, expenseAcct, deferredCostAcct))) == MapSum(comm)
  {
    PostingsKeepRows(Rows(comm), expenseAcct, deferredCostAcct, CommissionMemo(cid), cid);
    RowsTotal(comm);
  }
}
