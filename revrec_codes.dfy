/** The revenue-recognition rule codes of the line-item service
    (`revrec_codes.py`): straight-line over a number of months, point in time,
    usage curve, milestones mapped to months, and incremental percent
    complete, each fixing the rounding drift on its last month, plus the
    `apply_rule` dispatch. Amounts are in cents. Schedule keys are the
    zero-padded `"YYYY-MM"` texts, held here as periods; `sorted(keys)[-1]`
    is therefore the latest period (PeriodKeys.PaddedKeyOrder). */
module RevrecCodes {
  import opened Money
  import opened Periods
  import opened Calendar
  import opened Wrappers
  import opened Recognition

  /** `_month_add(d, m)`: `m` months on, the day clamped to at most 28. */
  function MonthAdd(d: Date, m: int): (r: Date)
    requires d.Valid()
    ensures r.Valid()
    ensures MonthIndex(r) == MonthIndex(d) + m
    ensures r.day == Min(d.day, 28)
  {
    Date(d.year + (d.month - 1 + m) / 12, (d.month - 1 + m) % 12 + 1, Min(d.day, 28))
  }

  /** The penny-drift fix: `diff = round(amount - sum(values), 2)`, and when
      it is at least a cent, `last` is rounded up or down by it. */
  function TrueUp(sched: Schedule, amount: int, last: Period): Schedule
    requires last in sched
  {
    var diff := RoundHalfEven((amount - MapSum(sched)) as real);
    if Abs(diff) >= 1 then sched[last := RoundHalfEven((sched[last] + diff) as real)] else sched
  }

  /** The fix keeps the periods, touches only `last`, and makes the schedule
      total exactly `amount`. */
  lemma TrueUpTotal(sched: Schedule, amount: int, last: Period)
    requires last in sched
    ensures TrueUp(sched, amount, last).Keys == sched.Keys
    ensures forall p :: p in sched && p != last ==> TrueUp(sched, amount, last)[p] == sched[p]
    ensures MapSum(TrueUp(sched, amount, last)) == amount
  {
    var diff := amount - MapSum(sched);
    RoundWhole(diff);
    if diff != 0 {
      RoundWhole(sched[last] + diff);
      MapSumUpdate(sched, last, sched[last] + diff);
    }
  }

  /** `straight_line(amount, start, months)` of the rule engine, with its
      errors: a zero term divides by zero, and a negative term with a nonzero
      amount looks up a month that was never filled. */
  function StraightLineRule(amount: int, start: Date, months: int): Result<Schedule>
  {
    if months == 0 then Failure("ZeroDivisionError: division by zero")
    else
      var first := MonthIndex(start);
      var sched := Constant(first, first + months, RoundHalfEven(amount as real / months as real));
      var last := first + months - 1;
      if Abs(RoundHalfEven((amount - MapSum(sched)) as real)) < 1 then Success(sched)
      else if last !in sched then Failure("KeyError: last month")
      else Success(TrueUp(sched, amount, last))
  }

  lemma ConstantExtend(a: Period, b: Period, c: int)
    requires a <= b
    ensures Accumulate(Constant(a, b, c), b, c) == Constant(a, b + 1, c)
  {
  }

  /** The rule-engine straight line: `per` is added into each of the `months`
      months from `start`, then the drift fix is applied to the last one. */
  method CodesStraightLine(amount: int, start: Date, months: int) returns (r: Result<Schedule>)
    requires start.Valid()
    ensures r == StraightLineRule(amount, start, months)
  {
    if months == 0 {
      return Failure("ZeroDivisionError: division by zero");
    }
    var per := RoundHalfEven(amount as real / months as real);
    var sched := FillMonths(start, months, per);
    var diff := RoundHalfEven((amount - MapSum(sched)) as real);
    if Abs(diff) >= 1 {
      var last := MonthIndex(MonthAdd(start, months - 1));
      if last !in sched {
        return Failure("KeyError: last month");
      }
      sched := TrueUp(sched, amount, last);
    }
    r := Success(sched);
  }

  /** The loop `for i in range(months)`: `per` added into each month from
      `start`; no month for a term below one. */
  method FillMonths(start: Date, months: int, per: int) returns (sched: Schedule)
    requires start.Valid()
    ensures sched == Constant(MonthIndex(start), MonthIndex(start) + months, per)
  {
    var first := MonthIndex(start);
    sched := map[];
    var i := 0;
    while i < months
      invariant 0 <= i && (months > 0 ==> i <= months) && (months <= 0 ==> i == 0)
      invariant sched == Constant(first, first + i, per)
    {
      var key := MonthIndex(MonthAdd(start, i));
      ConstantExtend(first, first + i, per);
      sched := Accumulate(sched, key, per);
      i := i + 1;
    }
    if months <= 0 {
      assert RangeSet(first, first + months) == RangeSet(first, first) == {};
    }
  }

  /** With a positive term: one key per month from `start`, each but the last
      holding `round(amount / months, 2)`, the whole tying out to `amount`. */
  lemma StraightLineRuleShape(amount: int, start: Date, months: int)
    requires months >= 1
    ensures StraightLineRule(amount, start, months).Success?
    ensures var s := StraightLineRule(amount, start, months).value;
      && s.Keys == RangeSet(MonthIndex(start), MonthIndex(start) + months)
      && (forall p :: MonthIndex(start) <= p < MonthIndex(start) + months - 1 ==> s[p] == PerPeriod(amount as real, months))
      && MapSum(s) == amount
  {
    var first := MonthIndex(start);
    var sched := Constant(first, first + months, PerPeriod(amount as real, months));
    TrueUpTotal(sched, amount, first + months - 1);
  }

  /** A zero term always fails; a negative term gives an empty schedule for a
      zero amount and fails otherwise. */
  lemma StraightLineRuleErrors(amount: int, start: Date, months: int)
    requires months <= 0
    ensures months == 0 ==> StraightLineRule(amount, start, months).Failure?
    ensures months < 0 ==> (StraightLineRule(amount, start, months).Failure? <==> amount != 0)
    ensures months < 0 && amount == 0 ==> StraightLineRule(amount, start, months) == Success(map[])
  {
    if months < 0 {
      var first := MonthIndex(start);
      var sched := Constant(first, first + months, RoundHalfEven(amount as real / months as real));
      NoMember(sched.Keys);
      assert sched == map[];
      RoundWhole(amount);
    }
  }

  /** `point_in_time(amount, on)`: the rounded amount in `on`'s month. */
  function CodesPointInTime(amount: int, on: Date): (r: Schedule)
    ensures r.Keys == {MonthIndex(on)} && MapSum(r) == amount
  {
    RoundWhole(amount);
    PointInTime(RoundHalfEven(amount as real), on)
  }

  /** `round(amount * pct, 2)` for every period of a curve. */
  function Proportional(amount: int, curve: map<Period, real>): (r: Schedule)
    ensures r.Keys == curve.Keys
  {
    map k | k in curve :: RoundHalfEven(Scale(amount, curve[k]))
  }

  /** `usage_based` and `percent_complete_rule` (the two are the same
      computation): the rounded shares, with the drift pushed onto the latest
      period when there is one. */
  function ProportionalRule(amount: int, curve: map<Period, real>): Schedule
  {
    var s := Proportional(amount, curve);
    if s == map[] then s else TrueUp(s, amount, MaxOf(s.Keys))
  }

  method UsageBased(amount: int, curve: map<Period, real>) returns (sched: Schedule)
    ensures sched == ProportionalRule(amount, curve)
  {
    sched := map[];
    var todo := curve.Keys;
    while todo != {}
      invariant todo <= curve.Keys
      invariant sched == map k | k in curve.Keys - todo :: RoundHalfEven(Scale(amount, curve[k]))
      decreases |todo|
    {
      NoMember(todo);
      var k :| k in todo;
      sched := sched[k := RoundHalfEven(Scale(amount, curve[k]))];
      todo := todo - {k};
    }
    assert sched == Proportional(amount, curve);
    var diff := RoundHalfEven((amount - MapSum(sched)) as real);
    if Abs(diff) >= 1 && sched != map[] {
      var last := MaxOf(sched.Keys);
      sched := sched[last := RoundHalfEven((sched[last] + diff) as real)];
    }
  }

  /** The curve's periods are kept exactly; every period but the latest holds
      its rounded share; a non-empty schedule ties out to `amount`. */
  lemma ProportionalRuleShape(amount: int, curve: map<Period, real>)
    ensures ProportionalRule(amount, curve).Keys == curve.Keys
    ensures forall k :: k in curve && k != MaxOf(curve.Keys) ==> ProportionalRule(amount, curve)[k] == RoundHalfEven(Scale(amount, curve[k]))
    ensures curve != map[] ==> MapSum(ProportionalRule(amount, curve)) == amount
  {
    var s := Proportional(amount, curve);
    if s != map[] {
      TrueUpTotal(s, amount, MaxOf(s.Keys));
    } else {
      assert curve.Keys == {};
    }
  }

  /** Milestone amounts after the weights `ws` have been seen, without the
      drift fix: each mapped milestone's share is added into its month and the
      running amount rounded; unmapped milestones are skipped. */
  function MilestoneAccrual(amount: int, ws: seq<(string, real)>, monthMap: map<string, Period>): Schedule
  {
    if ws == [] then map[]
    else
      var out := MilestoneAccrual(amount, ws[..|ws| - 1], monthMap);
      var name := ws[|ws| - 1].0;
      if name !in monthMap then out
      else out[monthMap[name] := RoundHalfEven(Get(out, monthMap[name]) as real + Scale(amount, ws[|ws| - 1].1))]
  }

  /** `milestone_based(amount, weights, month_map)` */
  function MilestoneRule(amount: int, ws: seq<(string, real)>, monthMap: map<string, Period>): Schedule
  {
    var out := MilestoneAccrual(amount, ws, monthMap);
    if out == map[] then out else TrueUp(out, amount, MaxOf(out.Keys))
  }

  method MilestoneBased(amount: int, ws: seq<(string, real)>, monthMap: map<string, Period>) returns (out: Schedule)
    ensures out == MilestoneRule(amount, ws, monthMap)
  {
    out := map[];
    var i := 0;
    while i < |ws|
      invariant 0 <= i <= |ws|
      invariant out == MilestoneAccrual(amount, ws[..i], monthMap)
    {
      var (name, w) := ws[i];
      assert ws[..i + 1][..i] == ws[..i];
      if name in monthMap {
        var ym := monthMap[name];
        out := out[ym := RoundHalfEven(Get(out, ym) as real + Scale(amount, w))];
      }
      i := i + 1;
    }
    assert ws[..|ws|] == ws;
    var diff := RoundHalfEven((amount - MapSum(out)) as real);
    if Abs(diff) >= 1 && out != map[] {
      var last := MaxOf(out.Keys);
      out := out[last := RoundHalfEven((out[last] + diff) as real)];
    }
  }

  /** The months that receive revenue are exactly the mapped milestones' months. */
  lemma {:induction false} MilestoneAccrualKeys(amount: int, ws: seq<(string, real)>, monthMap: map<string, Period>)
    ensures MilestoneAccrual(amount, ws, monthMap).Keys == set w | w in ws && w.0 in monthMap :: monthMap[w.0]
  {
    if ws != [] {
      var front := ws[..|ws| - 1];
      MilestoneAccrualKeys(amount, front, monthMap);
      assert ws == front + [ws[|ws| - 1]];
      assert (set w | w in ws && w.0 in monthMap :: monthMap[w.0])
        == (set w | w in front && w.0 in monthMap :: monthMap[w.0])
           + (if ws[|ws| - 1].0 in monthMap then {monthMap[ws[|ws| - 1].0]} else {});
    }
  }

  /** Unmapped milestones are skipped and a non-empty result ties out to `amount`. */
  lemma MilestoneRuleShape(amount: int, ws: seq<(string, real)>, monthMap: map<string, Period>)
    ensures MilestoneRule(amount, ws, monthMap).Keys == set w | w in ws && w.0 in monthMap :: monthMap[w.0]
    ensures MilestoneRule(amount, ws, monthMap) != map[] ==> MapSum(MilestoneRule(amount, ws, monthMap)) == amount
  {
    MilestoneAccrualKeys(amount, ws, monthMap);
    var out := MilestoneAccrual(amount, ws, monthMap);
    if out != map[] {
      TrueUpTotal(out, amount, MaxOf(out.Keys));
    }
  }

  /** A line item and the overrides it may carry (`None` also stands for an
      empty string or an empty dict, which Python's `or` skips the same way). */
  datatype LineItem = LineItem(
    amount: int,
    startDate: Option<Date>,
    recognitionDate: Option<Date>,
    usageCurve: Option<map<Period, real>>,
    milestones: Option<seq<(string, real)>>,
    percentComplete: Option<map<Period, real>>)

  /** The `params` of `apply_rule`. */
  datatype RuleParams = RuleParams(
    months: Option<int>,
    startDate: Option<Date>,
    recognitionDate: Option<Date>,
    curve: Option<map<Period, real>>,
    weights: Option<seq<(string, real)>>,
    monthMap: Option<map<string, Period>>,
    pctByMonth: Option<map<Period, real>>)

  /** Python's `a or b` on optional values. */
  function Or<T>(a: Option<T>, b: T): T
  {
    if a.Some? then a.value else b
  }

  function OrOpt<T>(a: Option<T>, b: Option<T>): Option<T>
  {
    if a.Some? then a else b
  }

  /** 2025-01-01, the default start. */
  const DefaultStart := Date(2025, 1, 1)
  /** 2025-01-15, the default recognition date. */
  const DefaultRecognition := Date(2025, 1, 15)

  /** `int(params.get("months") or 12)`: absent or zero means twelve. */
  function TermMonths(params: RuleParams): int
  {
    if params.months.Some? && params.months.value != 0 then params.months.value else 12
  }

  /** `apply_rule(rule_type, params, li)` */
  function ApplyRule(ruleType: string, params: RuleParams, li: LineItem): (r: Result<Schedule>)
    requires li.startDate.Some? ==> li.startDate.value.Valid()
    requires params.startDate.Some? ==> params.startDate.value.Valid()
  {
    if ruleType == "straight_line" then
      StraightLineRule(li.amount, Or(params.startDate, Or(li.startDate, DefaultStart)), TermMonths(params))
    else if ruleType == "point_in_time" then
      Success(CodesPointInTime(li.amount, Or(params.recognitionDate, Or(li.recognitionDate, DefaultRecognition))))
    else if ruleType == "usage" then
      Success(ProportionalRule(li.amount, Or(OrOpt(li.usageCurve, params.curve), map[])))
    else if ruleType == "milestone" then
      Success(MilestoneRule(li.amount, Or(params.weights, Or(li.milestones, [])), Or(params.monthMap, map[])))
    else if ruleType == "percent_complete" then
      Success(ProportionalRule(li.amount, Or(params.pctByMonth, Or(li.percentComplete, map[]))))
    else Failure("Unknown rule_type: " + ruleType)
  }

  /** Only the five rule names are accepted; every other name is an error,
      and only a straight line can fail. */
  lemma ApplyRuleDispatch(ruleType: string, params: RuleParams, li: LineItem)
    requires li.startDate.Some? ==> li.startDate.value.Valid()
    requires params.startDate.Some? ==> params.startDate.value.Valid()
    ensures ApplyRule(ruleType, params, li).Failure? <==>
      (ruleType !in ["straight_line", "point_in_time", "usage", "milestone", "percent_complete"])
      || (ruleType == "straight_line" && TermMonths(params) < 0 && li.amount != 0)
  {
    if ruleType == "straight_line" {
      var m := TermMonths(params);
      if m <= 0 {
        StraightLineRuleErrors(li.amount, Or(params.startDate, Or(li.startDate, DefaultStart)), m);
      } else {
        StraightLineRuleShape(li.amount, Or(params.startDate, Or(li.startDate, DefaultStart)), m);
      }
    }
  }

  /** With no overrides at all, a straight line runs twelve months from
      January 2025 and a point-in-time item lands in January 2025. */
  lemma ApplyRuleDefaults(amount: int)
    ensures var none := RuleParams(None, None, None, None, None, None, None);
      var li := LineItem(amount, None, None, None, None, None);
      && ApplyRule("straight_line", none, li).Success?
      && ApplyRule("straight_line", none, li).value.Keys == RangeSet(MonthIndex(DefaultStart), MonthIndex(DefaultStart) + 12)
      && ApplyRule("point_in_time", none, li).value.Keys == {MonthIndex(DefaultStart)}
  {
    StraightLineRuleShape(amount, DefaultStart, 12);
  }
}
