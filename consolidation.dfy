/** Multi-entity consolidation: each entity's revenue and commission
    schedules are translated into the parent currency at the period's FX
    rate, summed per period across entities, and revenue is reduced by the
    eliminations and intercompany amounts (already in the parent currency).
    Amounts are cents; each accumulation step rounds to the cent. */
module Consolidation {
  import opened Money
  import opened Periods
  import opened Wrappers

  /** An FX rate row; a missing or empty rate type means month-end. */
  datatype FxRate = FxRate(period: Period, currency: string, rateType: Option<string>, rateToParent: real)

  /** An entity: its currency and the items of its revenue and commission
      schedules, in the order its dictionaries hold them. */
  datatype Entity = Entity(currency: string, schedules: seq<(Period, int)>, commissions: seq<(Period, int)>)

  /** An elimination or intercompany row: `amount_parent_ccy` counts 0 when
      the row has none. */
  datatype Adjustment = Adjustment(period: Period, amountParentCcy: Option<int>)

  datatype ConsolidationIn = ConsolidationIn(
    parentCurrency: string, rateType: string, fxRates: seq<FxRate>, entities: seq<Entity>,
    eliminations: seq<Adjustment>, intercompany: seq<Adjustment>)

  datatype ConsolidatedRow = ConsolidatedRow(period: Period, revenueParent: int, commissionParent: int)

  datatype ConsolidationOut = ConsolidationOut(
    parentCurrency: string, rows: seq<ConsolidatedRow>, eliminationsApplied: Schedule, rateTypeUsed: string)

  /** The rate table, `fx[period][currency][type]`, flattened to one key. */
  type FxTable = map<(Period, string, string), real>

  /** `r.rate_type or 'month_end'`: an absent or empty type is month-end. */
  function RateType(t: Option<string>): (r: string)
    ensures r != []
    ensures t.Some? && t.value != [] ==> r == t.value
  {
    if t.Some? && t.value != [] then t.value else "month_end"
  }

  function Key(r: FxRate): (Period, string, string)
  {
    (r.period, r.currency, RateType(r.rateType))
  }

  /** The table after the first rows, each row overwriting its key. */
  function Fx(rates: seq<FxRate>): FxTable
  {
    if rates == [] then map[]
    else Fx(rates[..|rates| - 1])[Key(rates[|rates| - 1]) := rates[|rates| - 1].rateToParent]
  }

  /** The table has an entry exactly for the keys of the rows. */
  lemma {:induction false} FxKeys(rates: seq<FxRate>)
    ensures forall k :: k in Fx(rates) <==> exists i :: 0 <= i < |rates| && Key(rates[i]) == k
  {
    if rates != [] {
      var n := |rates| - 1;
      var pre := rates[..n];
      FxKeys(pre);
      assert Fx(rates) == Fx(pre)[Key(rates[n]) := rates[n].rateToParent];
      forall k ensures k in Fx(rates) <==> exists i :: 0 <= i < |rates| && Key(rates[i]) == k {
        if k == Key(rates[n]) {
          assert Key(rates[n]) == k;
        } else if k in Fx(pre) {
          var i :| 0 <= i < n && Key(pre[i]) == k;
          assert Key(rates[i]) == k;
        } else {
          assert forall i :: 0 <= i < n ==> pre[i] == rates[i];
        }
      }
    }
  }

  /** A later row overwrites an earlier one: the entry for a key holds the
      rate of the last row with that key. */
  lemma {:induction false} FxLastWins(rates: seq<FxRate>, i: nat)
    requires i < |rates| && forall j :: i < j < |rates| ==> Key(rates[j]) != Key(rates[i])
    ensures Key(rates[i]) in Fx(rates) && Fx(rates)[Key(rates[i])] == rates[i].rateToParent
  {
    var n := |rates| - 1;
    if i < n {
      var pre := rates[..n];
      assert Key(rates[n]) != Key(rates[i]);
      assert forall j :: i < j < n ==> pre[j] == rates[j];
      FxLastWins(pre, i);
    }
  }

  /** The loop that fills the rate table. */
  method BuildFx(rates: seq<FxRate>) returns (fx: FxTable)
    ensures fx == Fx(rates)
  {
    fx := map[];
    var i := 0;
    while i < |rates|
      invariant 0 <= i <= |rates|
      invariant fx == Fx(rates[..i])
    {
      assert rates[..i + 1][..i] == rates[..i];
      var r := rates[i];
      var typ := RateType(r.rateType);
      fx := fx[(r.period, r.currency, typ) := r.rateToParent];
      i := i + 1;
    }
    assert rates[..i] == rates;
  }

  /** `pick_rate`: the requested type, else month-end, else average, else 1. */
  function PickRate(fx: FxTable, period: Period, ccy: string, requested: string): (rate: real)
    ensures (period, ccy, requested) in fx ==> rate == fx[(period, ccy, requested)]
    ensures (period, ccy, requested) !in fx && (period, ccy, "month_end") in fx ==> rate == fx[(period, ccy, "month_end")]
    ensures (period, ccy, requested) !in fx && (period, ccy, "month_end") !in fx && (period, ccy, "average") in fx
      ==> rate == fx[(period, ccy, "average")]
    ensures (period, ccy, requested) !in fx && (period, ccy, "month_end") !in fx && (period, ccy, "average") !in fx
      ==> rate == 1.0
  {
    if (period, ccy, requested) in fx then fx[(period, ccy, requested)]
    else if (period, ccy, "month_end") in fx then fx[(period, ccy, "month_end")]
    else if (period, ccy, "average") in fx then fx[(period, ccy, "average")]
    else 1.0
  }

  /** The rate picked for a period and currency comes from a rate row of
      that period and currency, or is 1 when there is none of a usable type. */
  lemma PickRateFromRows(rates: seq<FxRate>, period: Period, ccy: string, requested: string)
    ensures var rate := PickRate(Fx(rates), period, ccy, requested);
      rate == 1.0 || exists i :: 0 <= i < |rates| && rates[i].period == period && rates[i].currency == ccy && rates[i].rateToParent == rate
  {
    var fx := Fx(rates);
    FxKeys(rates);
    var ts := [requested, "month_end", "average"];
    forall t | t in ts && (period, ccy, t) in fx
      ensures exists i :: 0 <= i < |rates| && rates[i].period == period && rates[i].currency == ccy && rates[i].rateToParent == fx[(period, ccy, t)]
    {
      var k := (period, ccy, t);
      var i :| 0 <= i < |rates| && Key(rates[i]) == k;
      var last := LastWith(rates, k, i);
      FxLastWins(rates, last);
    }
  }

  /** The last row with key `k`, at or after a row `i` that has it. */
  lemma LastWith(rates: seq<FxRate>, k: (Period, string, string), i: nat) returns (last: nat)
    requires i < |rates| && Key(rates[i]) == k
    ensures i <= last < |rates| && Key(rates[last]) == k
    ensures forall j :: last < j < |rates| ==> Key(rates[j]) != k
    decreases |rates| - i
  {
    if exists j :: i < j < |rates| && Key(rates[j]) == k {
      var j :| i < j < |rates| && Key(rates[j]) == k;
      last := LastWith(rates, k, j);
    } else {
      last := i;
    }
  }

  /** One schedule folded into a parent-currency total:
      `acc[p] = round(acc.get(p, 0.0) + amt * pick_rate(p, ccy), 2)`. */
  function Convert(acc: Schedule, items: seq<(Period, int)>, ccy: string, fx: FxTable, requested: string): Schedule
  {
    if items == [] then acc
    else
      var m := Convert(acc, items[..|items| - 1], ccy, fx, requested);
      var (p, amt) := items[|items| - 1];
      Translate(m, p, amt, PickRate(fx, p, ccy, requested))
  }

  /** `m[p] = round(m.get(p, 0.0) + amt * rate, 2)`: only period `p` moves,
      by the translated amount rounded to the cent. */
  function Translate(m: Schedule, p: Period, amt: int, rate: real): (r: Schedule)
    ensures r.Keys == m.Keys + {p}
    ensures forall q :: q != p ==> Get(r, q) == Get(m, q)
    ensures Near(r[p] as real, Get(m, p) as real + Translated(amt, rate), 1)
  {
    m[p := RoundHalfEven(Get(m, p) as real + Translated(amt, rate))]
  }

  /** `amt * rate`, unrounded. */
  function Translated(amt: int, rate: real): real
  {
    amt as real * rate
  }

  /** The periods of the items. */
  function ItemPeriods(items: seq<(Period, int)>): set<Period>
  {
    if items == [] then {} else ItemPeriods(items[..|items| - 1]) + {items[|items| - 1].0}
  }

  /** The unrounded parent-currency total of the items of period `p`. */
  function ExactAt(items: seq<(Period, int)>, p: Period, ccy: string, fx: FxTable, requested: string): real
  {
    if items == [] then 0.0
    else
      var last := items[|items| - 1];
      ExactAt(items[..|items| - 1], p, ccy, fx, requested) + (if last.0 == p then Translated(last.1, PickRate(fx, p, ccy, requested)) else 0.0)
  }

  /** The number of items of period `p`. */
  function CountAt(items: seq<(Period, int)>, p: Period): nat
  {
    if items == [] then 0
    else CountAt(items[..|items| - 1], p) + (if items[|items| - 1].0 == p then 1 else 0)
  }

  /** Folding a schedule in adds its periods and nothing else, and each
      period's total moves by the translated amounts of that period only,
      within half a cent of rounding per amount. */
  lemma ConvertNear(acc: Schedule, items: seq<(Period, int)>, ccy: string, fx: FxTable, requested: string)
    ensures var m := Convert(acc, items, ccy, fx, requested);
      && m.Keys == acc.Keys + ItemPeriods(items)
      && forall p :: Near(Get(m, p) as real, Get(acc, p) as real + ExactAt(items, p, ccy, fx, requested), CountAt(items, p))
  {
    ConvertKeys(acc, items, ccy, fx, requested);
    forall p ensures Near(Get(Convert(acc, items, ccy, fx, requested), p) as real,
                          Get(acc, p) as real + ExactAt(items, p, ccy, fx, requested), CountAt(items, p))
    {
      ConvertNearAt(acc, items, ccy, fx, requested, p);
    }
  }

  lemma {:induction false} ConvertKeys(acc: Schedule, items: seq<(Period, int)>, ccy: string, fx: FxTable, requested: string)
    ensures Convert(acc, items, ccy, fx, requested).Keys == acc.Keys + ItemPeriods(items)
  {
    if items != [] {
      ConvertKeys(acc, items[..|items| - 1], ccy, fx, requested);
    }
  }

  lemma {:induction false} ConvertNearAt(acc: Schedule, items: seq<(Period, int)>, ccy: string, fx: FxTable, requested: string, p: Period)
    ensures Near(Get(Convert(acc, items, ccy, fx, requested), p) as real,
                 Get(acc, p) as real + ExactAt(items, p, ccy, fx, requested), CountAt(items, p))
  {
    if items != [] {
      var n := |items| - 1;
      var pre := items[..n];
      ConvertNearAt(acc, pre, ccy, fx, requested, p);
      var m := Convert(acc, pre, ccy, fx, requested);
      var (q, amt) := items[n];
      var rate := PickRate(fx, q, ccy, requested);
      assert Convert(acc, items, ccy, fx, requested) == Translate(m, q, amt, rate);
      ExactAtStep(items, p, ccy, fx, requested);
      if p == q {
        NearAdd(Get(m, p) as real, Get(acc, p) as real + ExactAt(pre, p, ccy, fx, requested), CountAt(pre, p),
                Get(Translate(m, q, amt, rate), p) as real, Translated(amt, rate));
      } else {
        assert Get(Translate(m, q, amt, rate), p) == Get(m, p);
      }
    }
  }

  /** The last item adds to its own period's total and count only. */
  lemma ExactAtStep(items: seq<(Period, int)>, p: Period, ccy: string, fx: FxTable, requested: string)
    requires items != []
    ensures var n := |items| - 1;
      && ExactAt(items, p, ccy, fx, requested) == ExactAt(items[..n], p, ccy, fx, requested)
           + (if items[n].0 == p then Translated(items[n].1, PickRate(fx, p, ccy, requested)) else 0.0)
      && CountAt(items, p) == CountAt(items[..n], p) + (if items[n].0 == p then 1 else 0)
  {
  }

  /** Rounding once more moves the bound by one step. */
  lemma NearAdd(x: real, exact: real, steps: nat, y: real, d: real)
    requires Near(x, exact, steps) && Near(y, x + d, 1)
    ensures Near(y, exact + d, steps + 1)
  {
  }

  /** `x` is within half a unit per rounding step of `exact`. */
  predicate Near(x: real, exact: real, steps: nat)
  {
    exact - 0.5 * steps as real <= x <= exact + 0.5 * steps as real
  }

  /** The loop over one entity's schedule. */
  method AddConverted(acc: Schedule, items: seq<(Period, int)>, ccy: string, fx: FxTable, requested: string) returns (m: Schedule)
    ensures m == Convert(acc, items, ccy, fx, requested)
  {
    m := acc;
    var i := 0;
    while i < |items|
      invariant 0 <= i <= |items|
      invariant m == Convert(acc, items[..i], ccy, fx, requested)
    {
      assert items[..i + 1][..i] == items[..i];
      var (p, amt) := items[i];
      var rate := PickRate(fx, p, ccy, requested);
      m := Translate(m, p, amt, rate);
      i := i + 1;
    }
    assert items[..i] == items;
  }

  /** Revenue of all entities, entity by entity. */
  function Revenue(es: seq<Entity>, fx: FxTable, requested: string): Schedule
  {
    if es == [] then map[]
    else
      var e := es[|es| - 1];
      Convert(Revenue(es[..|es| - 1], fx, requested), e.schedules, e.currency, fx, requested)
  }

  /** Commissions of all entities, entity by entity. */
  function Commission(es: seq<Entity>, fx: FxTable, requested: string): Schedule
  {
    if es == [] then map[]
    else
      var e := es[|es| - 1];
      Convert(Commission(es[..|es| - 1], fx, requested), e.commissions, e.currency, fx, requested)
  }

  /** The unrounded revenue of period `p` over all entities, and the number
      of revenue items of that period. */
  function ExactRevenue(es: seq<Entity>, p: Period, fx: FxTable, requested: string): real
  {
    if es == [] then 0.0
    else
      var e := es[|es| - 1];
      ExactRevenue(es[..|es| - 1], p, fx, requested) + ExactAt(e.schedules, p, e.currency, fx, requested)
  }

  function RevenueItems(es: seq<Entity>, p: Period): nat
  {
    if es == [] then 0 else RevenueItems(es[..|es| - 1], p) + CountAt(es[|es| - 1].schedules, p)
  }

  function ExactCommission(es: seq<Entity>, p: Period, fx: FxTable, requested: string): real
  {
    if es == [] then 0.0
    else
      var e := es[|es| - 1];
      ExactCommission(es[..|es| - 1], p, fx, requested) + ExactAt(e.commissions, p, e.currency, fx, requested)
  }

  function CommissionItems(es: seq<Entity>, p: Period): nat
  {
    if es == [] then 0 else CommissionItems(es[..|es| - 1], p) + CountAt(es[|es| - 1].commissions, p)
  }

  /** Parent revenue per period is the sum over all entities of amount
      times rate, within half a cent per item; commissions likewise. */
  lemma {:induction false} TotalsNear(es: seq<Entity>, fx: FxTable, requested: string)
    ensures forall p :: Near(Get(Revenue(es, fx, requested), p) as real, ExactRevenue(es, p, fx, requested), RevenueItems(es, p))
    ensures forall p :: Near(Get(Commission(es, fx, requested), p) as real, ExactCommission(es, p, fx, requested), CommissionItems(es, p))
  {
    if es != [] {
      var n := |es| - 1;
      var e := es[n];
      TotalsNear(es[..n], fx, requested);
      ConvertNear(Revenue(es[..n], fx, requested), e.schedules, e.currency, fx, requested);
      ConvertNear(Commission(es[..n], fx, requested), e.commissions, e.currency, fx, requested);
    }
  }

  /** An adjustment row's amount, 0 when absent. */
  function Amount(a: Adjustment): int
  {
    if a.amountParentCcy.Some? then a.amountParentCcy.value else 0
  }

  /** Adjustment rows folded into the elimination totals:
      `elim[p] = round(elim.get(p, 0.0) + amount, 2)`. */
  function Eliminate(acc: Schedule, rows: seq<Adjustment>): Schedule
  {
    if rows == [] then acc
    else
      var m := Eliminate(acc, rows[..|rows| - 1]);
      var a := rows[|rows| - 1];
      RoundedAdd(m, a.period, Amount(a))
  }

  /** `m[p] = round(m.get(p, 0.0) + v, 2)` for a whole number of cents `v`:
      the rounding changes nothing. */
  function RoundedAdd(m: Schedule, p: Period, v: int): (r: Schedule)
    ensures r == Accumulate(m, p, v)
  {
    RoundWhole(Get(m, p) + v);
    m[p := RoundHalfEven((Get(m, p) + v) as real)]
  }

  /** The periods of the adjustment rows. */
  function RowPeriods(rows: seq<Adjustment>): set<Period>
  {
    if rows == [] then {} else RowPeriods(rows[..|rows| - 1]) + {rows[|rows| - 1].period}
  }

  /** The total of the adjustment rows of period `p`. */
  function AmountAt(rows: seq<Adjustment>, p: Period): int
  {
    if rows == [] then 0
    else AmountAt(rows[..|rows| - 1], p) + (if rows[|rows| - 1].period == p then Amount(rows[|rows| - 1]) else 0)
  }

  /** Whole cents need no rounding: each period's elimination total is the
      sum of its rows, and only the rows' periods are added. */
  lemma {:induction false} EliminateSums(acc: Schedule, rows: seq<Adjustment>)
    ensures var m := Eliminate(acc, rows);
      && m.Keys == acc.Keys + RowPeriods(rows)
      && forall p :: Get(m, p) == Get(acc, p) + AmountAt(rows, p)
  {
    if rows != [] {
      var n := |rows| - 1;
      var pre := rows[..n];
      EliminateSums(acc, pre);
    }
  }

  /** The loop over the elimination or intercompany rows. */
  method AddAdjustments(acc: Schedule, rows: seq<Adjustment>) returns (m: Schedule)
    ensures m == Eliminate(acc, rows)
  {
    m := acc;
    var i := 0;
    while i < |rows|
      invariant 0 <= i <= |rows|
      invariant m == Eliminate(acc, rows[..i])
    {
      assert rows[..i + 1][..i] == rows[..i];
      var a := rows[i];
      m := RoundedAdd(m, a.period, Amount(a));
      i := i + 1;
    }
    assert rows[..i] == rows;
  }

  /** Revenue less the elimination totals, over the periods of either. */
  function Net(rev: Schedule, elim: Schedule): (r: Schedule)
    ensures r.Keys == rev.Keys + elim.Keys
  {
    map p | p in rev.Keys + elim.Keys :: Get(rev, p) - Get(elim, p)
  }

  /** The loop `rev[p] = round(rev.get(p, 0.0) - amt, 2)` over the
      elimination totals; each period is visited once, so the order of the
      visits does not matter. */
  method SubtractEliminations(rev: Schedule, elim: Schedule) returns (r: Schedule)
    ensures r == Net(rev, elim)
  {
    r := rev;
    var todo := elim.Keys;
    PartEnds(rev, elim);
    assert elim.Keys - todo == {};
    while todo != {}
      invariant todo <= elim.Keys
      invariant r == Net(rev, Part(elim, elim.Keys - todo))
      decreases |todo|
    {
      NoMember(todo);
      var p :| p in todo;
      NetStep(rev, elim, elim.Keys - todo, p);
      assert elim.Keys - (todo - {p}) == (elim.Keys - todo) + {p};
      r := RoundedAdd(r, p, -elim[p]);
      todo := todo - {p};
    }
    assert elim.Keys - todo == elim.Keys;
  }

  /** Nothing subtracted leaves the revenue; everything subtracted is `Net`. */
  lemma PartEnds(rev: Schedule, elim: Schedule)
    ensures Net(rev, Part(elim, {})) == rev
    ensures Part(elim, elim.Keys) == elim
  {
    var a := Net(rev, Part(elim, {}));
    assert a.Keys == rev.Keys;
    forall q | q in a ensures a[q] == rev[q] {
      assert q !in Part(elim, {});
    }
    var b := Part(elim, elim.Keys);
    assert b.Keys == elim.Keys;
  }

  /** The elimination totals of the periods in `done`. */
  function Part(elim: Schedule, done: set<Period>): (r: Schedule)
    ensures r.Keys == elim.Keys * done
  {
    map p | p in elim.Keys * done :: elim[p]
  }

  /** Subtracting one more period's total from the net revenue. */
  lemma NetStep(rev: Schedule, elim: Schedule, done: set<Period>, p: Period)
    requires p in elim && p !in done
    ensures Net(rev, Part(elim, done + {p})) == Accumulate(Net(rev, Part(elim, done)), p, -elim[p])
  {
    var a := Net(rev, Part(elim, done + {p}));
    var b := Accumulate(Net(rev, Part(elim, done)), p, -elim[p]);
    assert a.Keys == b.Keys;
    forall q | q in a ensures a[q] == b[q] {
      if q != p {
        assert Get(Part(elim, done + {p}), q) == Get(Part(elim, done), q);
      }
    }
  }

  /** One row per period of `ps`, missing values shown as 0. */
  function RowsAt(ps: seq<Period>, rev: Schedule, comm: Schedule): (r: seq<ConsolidatedRow>)
    ensures |r| == |ps|
    ensures forall i :: 0 <= i < |ps| ==> r[i] == ConsolidatedRow(ps[i], Get(rev, ps[i]), Get(comm, ps[i]))
  {
    seq(|ps|, i requires 0 <= i < |ps| => ConsolidatedRow(ps[i], Get(rev, ps[i]), Get(comm, ps[i])))
  }

  /** The rows: periods of revenue or commission, ascending, missing
      values shown as 0. */
  function Rows(rev: Schedule, comm: Schedule): (r: seq<ConsolidatedRow>)
    ensures forall i :: 0 <= i < |r| ==> r[i].period in rev || r[i].period in comm
    ensures forall i, j :: 0 <= i < j < |r| ==> r[i].period < r[j].period
    ensures forall i :: 0 <= i < |r| ==> r[i].revenueParent == Get(rev, r[i].period) && r[i].commissionParent == Get(comm, r[i].period)
  {
    RowsSound(rev, comm, SortedKeys(rev.Keys + comm.Keys));
    RowsAt(SortedKeys(rev.Keys + comm.Keys), rev, comm)
  }

  lemma RowsSound(rev: Schedule, comm: Schedule, ps: seq<Period>)
    requires ps == SortedKeys(rev.Keys + comm.Keys)
    ensures var r := RowsAt(ps, rev, comm);
      forall i :: 0 <= i < |r| ==> r[i].period in rev || r[i].period in comm
  {
    var r := RowsAt(ps, rev, comm);
    forall i | 0 <= i < |r| ensures r[i].period in rev || r[i].period in comm {
      assert ps[i] in ps;
    }
  }

  /** Every period of revenue or commission has a row. */
  lemma RowsCover(rev: Schedule, comm: Schedule)
    ensures var r := Rows(rev, comm);
      forall p :: p in rev || p in comm ==> exists i :: 0 <= i < |r| && r[i].period == p
  {
    var ps := SortedKeys(rev.Keys + comm.Keys);
    var r := RowsAt(ps, rev, comm);
    assert r == Rows(rev, comm);
    forall p | p in rev || p in comm ensures exists i :: 0 <= i < |r| && r[i].period == p {
      assert p in ps;
      var i :| 0 <= i < |ps| && ps[i] == p;
      assert r[i].period == p;
    }
  }

  /** `consolidate` as a value: revenue net of eliminations and commission
      per period, and the elimination totals. */
  function Consolidated(inp: ConsolidationIn): ConsolidationOut
  {
    var fx := Fx(inp.fxRates);
    var rev := Revenue(inp.entities, fx, inp.rateType);
    var comm := Commission(inp.entities, fx, inp.rateType);
    var elim := Eliminate(Eliminate(map[], inp.eliminations), inp.intercompany);
    ConsolidationOut(inp.parentCurrency, Rows(Net(rev, elim), comm), elim, inp.rateType)
  }

  /** `consolidate` */
  method Consolidate(inp: ConsolidationIn) returns (out: ConsolidationOut)
    ensures out == Consolidated(inp)
  {
    var fx := BuildFx(inp.fxRates);
    var rev: Schedule := map[];
    var comm: Schedule := map[];
    var k := 0;
    while k < |inp.entities|
      invariant 0 <= k <= |inp.entities|
      invariant rev == Revenue(inp.entities[..k], fx, inp.rateType)
      invariant comm == Commission(inp.entities[..k], fx, inp.rateType)
    {
      assert inp.entities[..k + 1][..k] == inp.entities[..k];
      var e := inp.entities[k];
      rev := AddConverted(rev, e.schedules, e.currency, fx, inp.rateType);
      comm := AddConverted(comm, e.commissions, e.currency, fx, inp.rateType);
      k := k + 1;
    }
    assert inp.entities[..k] == inp.entities;
    var elim := AddAdjustments(map[], inp.eliminations);
    elim := AddAdjustments(elim, inp.intercompany);
    rev := SubtractEliminations(rev, elim);
    out := ConsolidationOut(inp.parentCurrency, Rows(rev, comm), elim, inp.rateType);
  }

  /** Each row's revenue is the translated revenue of its period less the
      eliminations and intercompany amounts of that period, within half a
      cent per revenue item; its commission is the translated commission,
      unaffected by eliminations, within the same bound. */
  lemma ConsolidatedRowsNear(inp: ConsolidationIn, i: nat)
    requires i < |Consolidated(inp).rows|
    ensures var row := Consolidated(inp).rows[i];
      var fx := Fx(inp.fxRates);
      && Near(row.revenueParent as real,
              ExactRevenue(inp.entities, row.period, fx, inp.rateType)
                - (AmountAt(inp.eliminations, row.period) + AmountAt(inp.intercompany, row.period)) as real,
              RevenueItems(inp.entities, row.period))
      && Near(row.commissionParent as real, ExactCommission(inp.entities, row.period, fx, inp.rateType),
              CommissionItems(inp.entities, row.period))
  {
    var fx := Fx(inp.fxRates);
    var rev := Revenue(inp.entities, fx, inp.rateType);
    var comm := Commission(inp.entities, fx, inp.rateType);
    var elim1 := Eliminate(map[], inp.eliminations);
    var elim := Eliminate(elim1, inp.intercompany);
    var row := Consolidated(inp).rows[i];
    var p := row.period;
    RowsOfNet(rev, comm, elim);
    assert row.revenueParent == Get(rev, p) - Get(elim, p) && row.commissionParent == Get(comm, p);
    TotalsNear(inp.entities, fx, inp.rateType);
    EliminateSums(map[], inp.eliminations);
    EliminateSums(elim1, inp.intercompany);
    assert Get(elim, p) == AmountAt(inp.eliminations, p) + AmountAt(inp.intercompany, p);
    NearShift(Get(rev, p) as real, ExactRevenue(inp.entities, p, fx, inp.rateType), RevenueItems(inp.entities, p), Get(elim, p) as real);
  }

  /** Subtracting the same amount from both sides keeps the bound. */
  lemma NearShift(x: real, exact: real, steps: nat, d: real)
    requires Near(x, exact, steps)
    ensures Near(x - d, exact - d, steps)
  {
  }

  /** A row of the consolidated table shows the period's revenue less its
      elimination total, and its commission. */
  lemma RowsOfNet(rev: Schedule, comm: Schedule, elim: Schedule)
    ensures var r := Rows(Net(rev, elim), comm);
      forall i :: 0 <= i < |r| ==>
        r[i].revenueParent == Get(rev, r[i].period) - Get(elim, r[i].period) && r[i].commissionParent == Get(comm, r[i].period)
  {
  }
}
